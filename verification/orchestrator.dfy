/**
 * Assist-mode scheduling: one worker enriches transcript segments in order, translation only for the
 * newest segment and only while speech-to-text (STT) rests.
 *
 * Code between two awaits is one atomic step. At every await the environment may enqueue, start or finish
 * STT requests, report backlog, stop the session, or let the update sink or a provider answer or fail.
 */
module AssistOrchestration {
  import opened Wrappers
  import PriorityGate

  const TRANSLATION_DURATION_HISTORY_SIZE := 4

  datatype Configuration = Configuration(translation: bool, simplification: bool, coaching: bool, maxQueueSize: nat)
  {
    predicate TranslationOnly() {
      translation && !simplification && !coaching
    }
  }

  datatype Lifecycle = Stopped | Running | Failed | Stopping

  datatype Capability = Translation | ReplyCoaching | Simplification

  datatype UpdateState = Processing | Ready | Unavailable | Failure

  datatype Update = Update(ordinal: nat, capability: Capability, state: UpdateState)

  // What is undone once a terminal translation update is out.
  datatype Cleanup = KeepPending | ClearLatest | ClearActive

  // Where the worker is suspended.
  datatype Worker =
    | NotStarted
    | Waiting
    | AwaitingAdmission(ordinal: nat, estimateMs: Option<int>)
    | PublishingProcessing(ordinal: nat, generation: nat)
    | Operating(ordinal: nat, generation: nat)
    | CancellingOperation(ordinal: nat)
    | PublishingTerminal(ordinal: nat, cleanup: Cleanup)
    | PublishingRejected(ordinal: nat)
    | PublishingOther(ordinal: nat, capability: Capability, terminal: bool)
    | RunningOther(ordinal: nat, capability: Capability)
    | Ended

  // What became of an enqueued segment, as far as translation is concerned.
  datatype Fate =
    | Queued          // still in the queue
    | InWork          // with the worker, no terminal translation update yet
    | Answered        // the worker sent its terminal translation update
    | Dropped         // pushed out of a full queue, and told so
    | Replaced        // coalesced away in a translation-only session
    | Rejected        // refused by the context
    | Untranslated    // translation is not enabled
    | Crashed         // its provider or its sink ended the worker before any terminal update
    | Silenced        // the session left RUNNING before its terminal update
    | Discarded       // still queued when the session ended

  datatype Session = Session(
    state: Lifecycle, terminated: bool, received: nat, latest: Option<nat>, active: Option<nat>, queue: seq<nat>,
    worker: Worker, droppers: map<nat, seq<Capability>>, durations: seq<int>, gate: PriorityGate.Gate, now: real,
    taken: nat, sent: seq<Update>, calls: seq<nat>, fates: seq<Fate>)

  datatype Event =
    | Start
    | Enqueue
    | Stop
    | StopCompletes
    | Dequeue(contextAccepts: bool, hasReplyContext: bool)
    | AdmissionReturns(hasReplyContext: bool)
    | PublishReturns(succeeds: bool, hasReplyContext: bool)
    | DropPublishReturns(ordinal: nat, succeeds: bool)
    | OperationReturns(outcome: UpdateState, elapsedMs: int, hasReplyContext: bool)
    | SttPreempts
    | CancelledOperationReturns(hasReplyContext: bool)
    | OperationBreaksWorker
    | PublishBreaksWorker
    | DropPublishBreaks(ordinal: nat)
    | WorkerCancelled
    | SttStart
    | SttFinish
    | Report(pendingChunks: int)
    | Tick(seconds: real)

  function Initial(gate: PriorityGate.Gate, now: real): Session {
    Session(Stopped, false, 0, None, None, [], NotStarted, map[], [], gate, now, 0, [], [], [])
  }

  /* ---------- small pieces ---------- */

  // Fate of the segment with a given ordinal; ordinals count from 1.
  function WithFate(fates: seq<Fate>, ordinal: nat, fate: Fate): seq<Fate> {
    if 0 < ordinal <= |fates| then fates[ordinal - 1 := fate] else fates
  }

  function Discard(fates: seq<Fate>): seq<Fate> {
    seq(|fates|, i requires 0 <= i < |fates| => if fates[i] == Queued then Discarded else fates[i])
  }

  // _clear_pending_queue.
  function ClearPendingQueue(s: Session): Session {
    s.(queue := [], fates := Discard(s.fates))
  }

  // An exception of the sink ends the session; a cancelled or stopped session only answers false.
  function SinkReturns(s: Session, succeeds: bool): Session {
    if succeeds then s else ClearPendingQueue(s.(state := Failed))
  }

  function Send(s: Session, u: Update): Session {
    s.(sent := s.sent + [u])
  }

  // deque(maxlen=4).append.
  function RememberDuration(durations: seq<int>, elapsedMs: int): seq<int> {
    if |durations| < TRANSLATION_DURATION_HISTORY_SIZE then durations + [elapsedMs] else durations[1..] + [elapsedMs]
  }

  function Slowest(durations: seq<int>): (m: int)
    requires durations != []
    ensures m in durations && forall d :: d in durations ==> d <= m
  {
    if |durations| == 1 then durations[0]
    else
      var rest := Slowest(durations[1..]);
      assert forall d :: d in durations ==> d == durations[0] || d in durations[1..];
      if durations[0] > rest then durations[0] else rest
  }

  function EstimatedDuration(durations: seq<int>): Option<int> {
    if durations == [] then None else Some(Slowest(durations))
  }

  function ClearOwnLatest(latest: Option<nat>, ordinal: nat): Option<nat> {
    if latest == Some(ordinal) then None else latest
  }

  function Clean(s: Session, ordinal: nat, cleanup: Cleanup): Session {
    match cleanup
    case KeepPending => s
    case ClearLatest => s.(latest := ClearOwnLatest(s.latest, ordinal))
    case ClearActive => s.(active := None, latest := ClearOwnLatest(s.latest, ordinal))
  }

  // The end of one pass of the worker loop.
  function EndSegment(s: Session): Session {
    s.(worker := if s.state == Running then Waiting else Ended)
  }

  // Reply coaching, then simplification; outside RUNNING nothing is published and so nothing runs.
  function StartOther(s: Session, ordinal: nat, capability: Capability): Session {
    Send(s, Update(ordinal, capability, Processing)).(worker := PublishingOther(ordinal, capability, false))
  }

  function AfterCoaching(cfg: Configuration, s: Session, ordinal: nat): Session {
    if cfg.simplification && s.state == Running then StartOther(s, ordinal, Simplification) else EndSegment(s)
  }

  function AfterTranslation(cfg: Configuration, s: Session, ordinal: nat, hasReplyContext: bool): Session {
    if cfg.coaching && hasReplyContext && s.state == Running then StartOther(s, ordinal, ReplyCoaching)
    else AfterCoaching(cfg, s, ordinal)
  }

  function AfterOther(cfg: Configuration, s: Session, ordinal: nat, capability: Capability): Session {
    if capability == ReplyCoaching then AfterCoaching(cfg, s, ordinal) else EndSegment(s)
  }

  // The terminal translation update of the worker's segment, if the session still runs.
  function Terminal(
      cfg: Configuration, s: Session, ordinal: nat, state: UpdateState, cleanup: Cleanup,
        hasReplyContext: bool): Session
  {
    if s.state == Running then
      Send(s, Update(ordinal, Translation, state)).(
        worker := PublishingTerminal(ordinal, cleanup), fates := WithFate(s.fates, ordinal, Answered))
    else
      AfterTranslation(cfg, Clean(Silence(s, ordinal), ordinal, cleanup), ordinal, hasReplyContext)
  }

  function Silence(s: Session, ordinal: nat): Session {
    s.(fates := WithFate(s.fates, ordinal, Silenced))
  }

  /* ---------- the steps ---------- */

  function Started(s: Session): Session {
    if s.state == Running || s.terminated || s.state == Failed then s
    else s.(state := Running, worker := Waiting)
  }

  function Enabled(cfg: Configuration): seq<Capability> {
    (if cfg.translation then [Translation] else []) +
    (if cfg.coaching then [ReplyCoaching] else []) +
    (if cfg.simplification then [Simplification] else [])
  }

  // The queue's own part of enqueue: the newest replaces the one waiting in a translation-only session,
  // and otherwise pushes out the oldest when the queue is full.
  function Enqueued(cfg: Configuration, s: Session): Session {
    var ordinal := s.received + 1;
    var t := s.(received := ordinal, latest := if cfg.translation then Some(ordinal) else s.latest);
    if cfg.TranslationOnly() && s.queue != [] then
      t.(queue := s.queue[1..] + [ordinal], fates := WithFate(s.fates, s.queue[0], Replaced) + [Queued])
    else if |s.queue| < cfg.maxQueueSize || s.queue == [] then
      t.(queue := s.queue + [ordinal], fates := s.fates + [Queued])
    else
      PublishDropped(cfg, t.(queue := s.queue[1..] + [ordinal], fates := s.fates + [Queued]), s.queue[0])
  }

  // The dropped segment's first update goes out in the same step.
  function PublishDropped(cfg: Configuration, s: Session, ordinal: nat): Session {
    var capabilities := Enabled(cfg);
    var t := s.(fates := WithFate(s.fates, ordinal, if cfg.translation then Dropped else Untranslated));
    if capabilities == [] then t
    else Send(t, Update(ordinal, capabilities[0], Unavailable)).(droppers := t.droppers[ordinal := capabilities[1..]])
  }

  function DropContinues(s: Session, ordinal: nat): Session
    requires ordinal in s.droppers
  {
    var rest := s.droppers[ordinal];
    if s.state == Running && rest != []
    then Send(s, Update(ordinal, rest[0], Unavailable)).(droppers := s.droppers[ordinal := rest[1..]])
    else s.(droppers := map o | o in s.droppers && o != ordinal :: s.droppers[o])
  }

  // The call that enqueued raises; nothing more is published for the dropped segment.
  function DropBroken(s: Session, ordinal: nat): Session {
    s.(droppers := map o | o in s.droppers && o != ordinal :: s.droppers[o])
  }

  function Dequeued(cfg: Configuration, s: Session, contextAccepts: bool, hasReplyContext: bool): Session
    requires s.queue != []
  {
    var ordinal := s.queue[0];
    var t := s.(queue := s.queue[1..], taken := ordinal);
    if !contextAccepts then
      var u := t.(fates := WithFate(s.fates, ordinal, Rejected));
      if s.state == Running
      then Send(u, Update(ordinal, ReplyCoaching, Failure)).(worker := PublishingRejected(ordinal))
      else EndSegment(u)
    else if !cfg.translation then
      AfterTranslation(cfg, t.(fates := WithFate(s.fates, ordinal, Untranslated)), ordinal, hasReplyContext)
    else
      var u := t.(fates := WithFate(s.fates, ordinal, InWork));
      if s.latest != Some(ordinal) then Terminal(cfg, u, ordinal, Unavailable, KeepPending, hasReplyContext)
      else u.(worker := AwaitingAdmission(ordinal, EstimatedDuration(s.durations)))
  }

  function Admitted(cfg: Configuration, s: Session, ordinal: nat, hasReplyContext: bool): Session {
    if s.state != Running then AfterTranslation(cfg, Silence(s, ordinal), ordinal, hasReplyContext)
    else if s.latest != Some(ordinal) then Terminal(cfg, s, ordinal, Unavailable, KeepPending, hasReplyContext)
    else Send(s, Update(ordinal, Translation, Processing)).(worker := PublishingProcessing(ordinal, s.gate.generation))
  }

  // After the processing update is out everything is checked again before the provider may start.
  function ProcessingPublished(
      cfg: Configuration, s: Session, ordinal: nat, generation: nat, published: bool, hasReplyContext: bool): Session
  {
    if !published then AfterTranslation(cfg, Silence(s, ordinal), ordinal, hasReplyContext)
    else if s.gate.active > 0 || s.gate.generation != generation then
      Terminal(cfg, s, ordinal, Unavailable, ClearLatest, hasReplyContext)
    else if s.latest != Some(ordinal) then Terminal(cfg, s, ordinal, Unavailable, KeepPending, hasReplyContext)
    else s.(active := Some(ordinal), worker := Operating(ordinal, generation), calls := s.calls + [ordinal])
  }

  function PublishReturned(cfg: Configuration, before: Session, succeeds: bool, hasReplyContext: bool): Session {
    var s := SinkReturns(before, succeeds);
    var published := succeeds && s.state == Running;
    match s.worker
    case PublishingProcessing(ordinal, generation) =>
      ProcessingPublished(cfg, s, ordinal, generation, published, hasReplyContext)
    case PublishingTerminal(ordinal, cleanup) =>
      AfterTranslation(cfg, Clean(s, ordinal, cleanup), ordinal, hasReplyContext)
    case PublishingRejected(_) => EndSegment(s)
    case PublishingOther(ordinal, capability, terminal) =>
      if published && !terminal then s.(worker := RunningOther(ordinal, capability))
      else AfterOther(cfg, s, ordinal, capability)
    case _ => before
  }

  // A provider answers with an update, or raises an error that is reported as a failure. READY counts as a
  // translation that was completed in time.
  function OperationReturned(
      cfg: Configuration, s: Session, outcome: UpdateState, elapsedMs: int, hasReplyContext: bool): Session
  {
    match s.worker
    case Operating(ordinal, _) =>
      Terminal(cfg, Timed(s, outcome, elapsedMs), ordinal, outcome, ClearActive, hasReplyContext)
    case RunningOther(ordinal, capability) =>
      if s.state == Running then
        Send(s, Update(ordinal, capability, outcome)).(worker := PublishingOther(ordinal, capability, true))
      else AfterOther(cfg, s, ordinal, capability)
    case _ => s
  }

  function Timed(s: Session, outcome: UpdateState, elapsedMs: int): Session {
    if outcome == Ready then s.(durations := RememberDuration(s.durations, elapsedMs)) else s
  }

  // The worker ends wherever it is suspended. Within the provider call and after it, its cleanup still runs.
  function Interrupted(s: Session, fate: Fate): Session {
    match s.worker
    case AwaitingAdmission(ordinal, _) => s.(worker := Ended, fates := WithFate(s.fates, ordinal, fate))
    case PublishingProcessing(ordinal, _) => s.(worker := Ended, fates := WithFate(s.fates, ordinal, fate))
    case Operating(ordinal, _) =>
      Clean(s, ordinal, ClearActive).(worker := Ended, fates := WithFate(s.fates, ordinal, fate))
    case CancellingOperation(ordinal) =>
      Clean(s, ordinal, ClearActive).(worker := Ended, fates := WithFate(s.fates, ordinal, fate))
    case PublishingTerminal(ordinal, cleanup) =>
      (if cleanup == ClearActive then Clean(s, ordinal, ClearActive) else s).(worker := Ended)
    case _ => s.(worker := Ended)
  }

  predicate CallsProvider(w: Worker) {
    w.Operating? || w.CancellingOperation? || w.RunningOther?
  }

  predicate CallsSink(w: Worker) {
    w.PublishingProcessing? || w.PublishingTerminal? || w.PublishingRejected? || w.PublishingOther?
  }

  // An exception the worker does not catch: a cancellation raised by a provider or by the sink, or any error
  // of a translation while it is being cancelled.
  predicate Breaks(s: Session, e: Event) {
    (e.OperationBreaksWorker? && CallsProvider(s.worker)) || (e.PublishBreaksWorker? && CallsSink(s.worker))
  }

  function StopRequested(s: Session): Session {
    if s.terminated then s
    else ClearPendingQueue(s.(terminated := true, state := if s.state == Running then Stopping else s.state))
  }

  function Step(cfg: Configuration, s: Session, e: Event): Session {
    match e
    case Start => Started(s)
    case Enqueue => if s.state == Running then Enqueued(cfg, s) else s
    case Stop => StopRequested(s)
    case StopCompletes =>
      if s.terminated && (s.worker.NotStarted? || s.worker.Ended?) && s.state != Failed then s.(state := Stopped) else s
    case Dequeue(accepts, context) =>
      if s.worker.Waiting? && s.queue != [] then Dequeued(cfg, s, accepts, context) else s
    case AdmissionReturns(context) =>
      if s.worker.AwaitingAdmission? && PriorityGate.Admits(s.gate, s.now, s.worker.estimateMs)
      then Admitted(cfg, s, s.worker.ordinal, context) else s
    case PublishReturns(succeeds, context) => PublishReturned(cfg, s, succeeds, context)
    case DropPublishReturns(ordinal, succeeds) =>
      if ordinal in s.droppers then DropContinues(SinkReturns(s, succeeds), ordinal) else s
    case DropPublishBreaks(ordinal) => DropBroken(s, ordinal)
    case OperationReturns(outcome, elapsedMs, context) =>
      if outcome == Processing then s else OperationReturned(cfg, s, outcome, elapsedMs, context)
    case SttPreempts =>
      if s.worker.Operating? && s.gate.generation != s.worker.generation
      then s.(worker := CancellingOperation(s.worker.ordinal)) else s
    case CancelledOperationReturns(context) =>
      if s.worker.CancellingOperation? then Terminal(cfg, s, s.worker.ordinal, Unavailable, ClearActive, context) else s
    case OperationBreaksWorker => if Breaks(s, e) then Interrupted(s, Crashed) else s
    case PublishBreaksWorker => if Breaks(s, e) then Interrupted(s, Crashed) else s
    case WorkerCancelled =>
      if s.terminated && !s.worker.NotStarted? && !s.worker.Ended? then Interrupted(s, Silenced) else s
    case SttStart => s.(gate := PriorityGate.Started(s.gate, s.now))
    case SttFinish => s.(gate := PriorityGate.Finished(s.gate))
    case Report(n) => s.(gate := PriorityGate.Reported(s.gate, n))
    case Tick(seconds) => if seconds > 0.0 then s.(now := s.now + seconds) else s
  }

  function Run(cfg: Configuration, s: Session, trace: seq<Event>): Session {
    if trace == [] then s else Step(cfg, Run(cfg, s, trace[..|trace| - 1]), trace[|trace| - 1])
  }

  /* ---------- the queue and the newest pending translation ---------- */

  function Bound(cfg: Configuration): nat {
    if cfg.TranslationOnly() || cfg.maxQueueSize == 0 then 1 else cfg.maxQueueSize
  }

  function Holds(w: Worker): Option<nat> {
    match w
    case AwaitingAdmission(ordinal, _) => Some(ordinal)
    case PublishingProcessing(ordinal, _) => Some(ordinal)
    case Operating(ordinal, _) => Some(ordinal)
    case CancellingOperation(ordinal) => Some(ordinal)
    case PublishingTerminal(ordinal, _) => Some(ordinal)
    case PublishingRejected(ordinal) => Some(ordinal)
    case PublishingOther(ordinal, _, _) => Some(ordinal)
    case RunningOther(ordinal, _) => Some(ordinal)
    case _ => None
  }

  // The queue holds the newest ordinals without a gap, so it is strictly increasing.
  ghost predicate Newest(queue: seq<nat>, received: nat) {
    |queue| <= received && forall i :: 0 <= i < |queue| ==> queue[i] == received - |queue| + 1 + i
  }

  // The newest pending translation is the newest segment, and so is the last of a non-empty queue.
  ghost predicate QueueSound(cfg: Configuration, s: Session) {
    Newest(s.queue, s.received) && |s.queue| <= Bound(cfg) && s.taken <= s.received - |s.queue| &&
    (s.latest.Some? ==> cfg.translation && s.latest == Some(s.received)) &&
    (cfg.translation && s.queue != [] ==> s.latest == Some(s.received)) &&
    (s.state != Running ==> s.queue == []) && (s.terminated ==> s.state != Running) &&
    (s.taken > 0 ==> Begun(s)) && (!Begun(s) ==> s.received == 0)
  }

  predicate Begun(s: Session) {
    s.state == Running || s.state == Failed || s.terminated
  }

  predicate Translating(w: Worker) {
    w.Operating? || w.CancellingOperation? || (w.PublishingTerminal? && w.cleanup == ClearActive)
  }

  // The worker holds the segment taken last; a translation is active exactly while its provider may run.
  ghost predicate WorkerSound(s: Session) {
    (Holds(s.worker).Some? ==> 0 < s.taken && Holds(s.worker) == Some(s.taken)) &&
    (s.worker.NotStarted? || Begun(s)) &&
    s.active == if Translating(s.worker) then Some(s.taken) else None
  }

  ghost predicate Sound(cfg: Configuration, s: Session) {
    QueueSound(cfg, s) && WorkerSound(s)
  }

  lemma {:induction false} NewestJoins(queue: seq<nat>, received: nat)
    requires Newest(queue, received)
    ensures Newest(queue + [received + 1], received + 1)
    ensures queue != [] ==> Newest(queue[1..] + [received + 1], received + 1)
  {
  }

  lemma {:induction false} EnqueueKeepsQueue(cfg: Configuration, s: Session)
    requires Sound(cfg, s) && s.state == Running
    ensures Sound(cfg, Enqueued(cfg, s))
  {
    NewestJoins(s.queue, s.received);
  }

  lemma {:induction false} DequeueKeepsQueue(cfg: Configuration, s: Session, accepts: bool, context: bool)
    requires Sound(cfg, s) && s.worker.Waiting? && s.queue != []
    ensures Sound(cfg, Dequeued(cfg, s, accepts, context))
  {
  }

  lemma {:induction false} OtherKeepsQueue(cfg: Configuration, s: Session, context: bool)
    requires QueueSound(cfg, s) && s.taken > 0 && s.active.None?
    ensures Sound(cfg, AfterTranslation(cfg, s, s.taken, context))
    ensures Sound(cfg, AfterCoaching(cfg, s, s.taken))
    ensures Sound(cfg, EndSegment(s))
  {
  }

  lemma {:induction false} CleanKeepsQueue(cfg: Configuration, s: Session, cleanup: Cleanup)
    requires QueueSound(cfg, s)
    ensures var t := Clean(s, s.taken, cleanup);
            QueueSound(cfg, t) && t.taken == s.taken && t.active == if cleanup == ClearActive then None else s.active
  {
  }

  lemma {:induction false} TerminalKeepsQueue(
      cfg: Configuration, s: Session, state: UpdateState, cleanup: Cleanup, context: bool)
    requires QueueSound(cfg, s) && s.taken > 0 && s.active == if cleanup == ClearActive then Some(s.taken) else None
    ensures Sound(cfg, Terminal(cfg, s, s.taken, state, cleanup, context))
  {
    if s.state != Running {
      var t := Silence(s, s.taken);
      CleanKeepsQueue(cfg, t, cleanup);
      OtherKeepsQueue(cfg, Clean(t, s.taken, cleanup), context);
    }
  }

  lemma {:induction false} SinkKeepsQueue(cfg: Configuration, s: Session, succeeds: bool)
    requires Sound(cfg, s)
    ensures Sound(cfg, SinkReturns(s, succeeds)) && SinkReturns(s, succeeds).worker == s.worker
    ensures SinkReturns(s, succeeds).taken == s.taken
  {
  }

  lemma {:induction false} ProcessingKeepsQueue(cfg: Configuration, s: Session, published: bool, context: bool)
    requires Sound(cfg, s) && s.worker.PublishingProcessing?
    ensures Sound(cfg, ProcessingPublished(cfg, s, s.worker.ordinal, s.worker.generation, published, context))
  {
    if !published {
      OtherKeepsQueue(cfg, Silence(s, s.taken), context);
    } else if s.gate.active > 0 || s.gate.generation != s.worker.generation {
      TerminalKeepsQueue(cfg, s, Unavailable, ClearLatest, context);
    } else if s.latest != Some(s.taken) {
      TerminalKeepsQueue(cfg, s, Unavailable, KeepPending, context);
    }
  }

  lemma {:induction false} PublishKeepsQueue(cfg: Configuration, before: Session, succeeds: bool, context: bool)
    requires Sound(cfg, before)
    ensures Sound(cfg, PublishReturned(cfg, before, succeeds, context))
  {
    var s := SinkReturns(before, succeeds);
    SinkKeepsQueue(cfg, before, succeeds);
    match s.worker
    case PublishingProcessing(_, _) =>
      ProcessingKeepsQueue(cfg, s, succeeds && s.state == Running, context);
    case PublishingTerminal(_, cleanup) =>
      CleanKeepsQueue(cfg, s, cleanup);
      OtherKeepsQueue(cfg, Clean(s, s.taken, cleanup), context);
    case PublishingRejected(_) => OtherKeepsQueue(cfg, s, context);
    case PublishingOther(_, _, _) => OtherKeepsQueue(cfg, s, context);
    case _ =>
  }

  lemma {:induction false} AdmissionKeepsQueue(cfg: Configuration, s: Session, context: bool)
    requires Sound(cfg, s) && s.worker.AwaitingAdmission?
    ensures Sound(cfg, Admitted(cfg, s, s.worker.ordinal, context))
  {
    if s.state != Running {
      OtherKeepsQueue(cfg, Silence(s, s.taken), context);
    } else if s.latest != Some(s.taken) {
      TerminalKeepsQueue(cfg, s, Unavailable, KeepPending, context);
    }
  }

  lemma {:induction false} OperationKeepsQueue(
      cfg: Configuration, s: Session, outcome: UpdateState, elapsedMs: int, context: bool)
    requires Sound(cfg, s)
    ensures Sound(cfg, OperationReturned(cfg, s, outcome, elapsedMs, context))
  {
    match s.worker
    case Operating(_, _) =>
      TerminalKeepsQueue(cfg, Timed(s, outcome, elapsedMs),
        outcome, ClearActive, context);
    case RunningOther(_, _) => OtherKeepsQueue(cfg, s, context);
    case _ =>
  }

  lemma {:induction false} InterruptionKeepsQueue(cfg: Configuration, s: Session, fate: Fate)
    requires Sound(cfg, s) && Begun(s)
    ensures Sound(cfg, Interrupted(s, fate))
  {
    CleanKeepsQueue(cfg, s, ClearActive);
  }

  lemma {:induction false} EndingKeepsQueue(cfg: Configuration, s: Session, e: Event)
    requires Sound(cfg, s)
    requires e.Stop? || e.StopCompletes? || e.OperationBreaksWorker? || e.PublishBreaksWorker? || e.WorkerCancelled?
    ensures Sound(cfg, Step(cfg, s, e))
  {
    if Begun(s) {
      InterruptionKeepsQueue(cfg, s, Crashed);
      InterruptionKeepsQueue(cfg, s, Silenced);
    }
  }

  lemma {:induction false} DropKeepsQueue(cfg: Configuration, s: Session, ordinal: nat, succeeds: bool)
    requires Sound(cfg, s) && ordinal in s.droppers
    ensures Sound(cfg, DropContinues(SinkReturns(s, succeeds), ordinal))
  {
    SinkKeepsQueue(cfg, s, succeeds);
  }

  lemma {:induction false} EnvironmentKeepsQueue(cfg: Configuration, s: Session, e: Event)
    requires Sound(cfg, s) && (e.Start? || e.DropPublishBreaks? || e.SttPreempts? || e.SttStart? ||
      e.SttFinish? || e.Report? || e.Tick?)
    ensures Sound(cfg, Step(cfg, s, e))
  {
  }

  lemma {:induction false} StepKeepsQueue(cfg: Configuration, s: Session, e: Event)
    requires Sound(cfg, s)
    ensures Sound(cfg, Step(cfg, s, e))
  {
    match e
    case Enqueue => if s.state == Running { EnqueueKeepsQueue(cfg, s); }
    case Dequeue(accepts, context) =>
      if s.worker.Waiting? && s.queue != [] { DequeueKeepsQueue(cfg, s, accepts, context); }
    case AdmissionReturns(context) => if s.worker.AwaitingAdmission? { AdmissionKeepsQueue(cfg, s, context); }
    case PublishReturns(succeeds, context) => PublishKeepsQueue(cfg, s, succeeds, context);
    case OperationReturns(outcome, elapsedMs, context) => OperationKeepsQueue(cfg, s, outcome, elapsedMs, context);
    case CancelledOperationReturns(context) =>
      if s.worker.CancellingOperation? { TerminalKeepsQueue(cfg, s, Unavailable, ClearActive, context); }
    case DropPublishReturns(ordinal, succeeds) =>
      if ordinal in s.droppers { DropKeepsQueue(cfg, s, ordinal, succeeds); }
    case Stop => EndingKeepsQueue(cfg, s, e);
    case StopCompletes => EndingKeepsQueue(cfg, s, e);
    case OperationBreaksWorker => EndingKeepsQueue(cfg, s, e);
    case PublishBreaksWorker => EndingKeepsQueue(cfg, s, e);
    case WorkerCancelled => EndingKeepsQueue(cfg, s, e);
    case _ => EnvironmentKeepsQueue(cfg, s, e);
  }

  /* ---------- terminal translation updates ---------- */

  predicate IsTerminal(u: Update, ordinal: nat) {
    u.ordinal == ordinal && u.capability == Translation && u.state != Processing
  }

  // How many terminal translation updates a segment has been sent.
  function Terminals(sent: seq<Update>, ordinal: nat): nat {
    if sent == [] then 0
    else Terminals(sent[..|sent| - 1], ordinal) + if IsTerminal(sent[|sent| - 1], ordinal) then 1 else 0
  }

  lemma {:induction false} TerminalsSnoc(sent: seq<Update>, u: Update, ordinal: nat)
    ensures Terminals(sent + [u], ordinal) == Terminals(sent, ordinal) + if IsTerminal(u, ordinal) then 1 else 0
  {
    assert (sent + [u])[..|sent|] == sent;
  }

  predicate Told(fates: seq<Fate>, ordinal: nat) {
    0 < ordinal <= |fates| && (fates[ordinal - 1] == Answered || fates[ordinal - 1] == Dropped)
  }

  // Exactly the answered and the dropped segments were told, once each.
  ghost predicate Accounted(sent: seq<Update>, fates: seq<Fate>, ordinal: nat) {
    Terminals(sent, ordinal) == if Told(fates, ordinal) then 1 else 0
  }

  ghost predicate Counts(sent: seq<Update>, fates: seq<Fate>) {
    forall o: nat {:trigger Accounted(sent, fates, o)} :: Accounted(sent, fates, o)
  }

  lemma {:induction false} QuietSend(sent: seq<Update>, fates: seq<Fate>, u: Update)
    requires Counts(sent, fates) && (u.capability != Translation || u.state == Processing)
    ensures Counts(sent + [u], fates)
  {
    forall o: nat ensures Accounted(sent + [u], fates, o) {
      assert Accounted(sent, fates, o);
      TerminalsSnoc(sent, u, o);
    }
  }

  lemma {:induction false} TerminalSend(sent: seq<Update>, fates: seq<Fate>, u: Update, fate: Fate)
    requires Counts(sent, fates) && IsTerminal(u, u.ordinal) && 0 < u.ordinal <= |fates| && !Told(fates, u.ordinal)
    requires fate == Answered || fate == Dropped
    ensures Counts(sent + [u], WithFate(fates, u.ordinal, fate))
  {
    forall o: nat ensures Accounted(sent + [u], WithFate(fates, u.ordinal, fate), o) {
      assert Accounted(sent, fates, o);
      TerminalsSnoc(sent, u, o);
    }
  }

  lemma {:induction false} SameTold(sent: seq<Update>, fates: seq<Fate>, after: seq<Fate>)
    requires Counts(sent, fates) && forall o: nat :: Told(after, o) <==> Told(fates, o)
    ensures Counts(sent, after)
  {
    forall o: nat ensures Accounted(sent, after, o) {
      assert Accounted(sent, fates, o);
    }
  }

  lemma {:induction false} QuietFate(sent: seq<Update>, fates: seq<Fate>, ordinal: nat, fate: Fate)
    requires Counts(sent, fates) && !Told(fates, ordinal) && fate != Answered && fate != Dropped
    ensures Counts(sent, WithFate(fates, ordinal, fate))
  {
    SameTold(sent, fates, WithFate(fates, ordinal, fate));
  }

  lemma {:induction false} DiscardKeepsCounts(sent: seq<Update>, fates: seq<Fate>)
    requires Counts(sent, fates)
    ensures Counts(sent, Discard(fates))
  {
    SameTold(sent, fates, Discard(fates));
  }

  /* ---------- the counts over every step ---------- */

  ghost predicate Untold(s: Session, ordinal: nat) {
    Counts(s.sent, s.fates) && 0 < ordinal <= |s.fates| && !Told(s.fates, ordinal)
  }

  lemma {:induction false} OtherKeepsCounts(cfg: Configuration, s: Session, ordinal: nat, context: bool)
    requires Counts(s.sent, s.fates)
    ensures var t := AfterTranslation(cfg, s, ordinal, context); Counts(t.sent, t.fates)
    ensures var t := AfterCoaching(cfg, s, ordinal); Counts(t.sent, t.fates)
    ensures EndSegment(s).sent == s.sent && EndSegment(s).fates == s.fates
  {
    QuietSend(s.sent, s.fates, Update(ordinal, Simplification, Processing));
    QuietSend(s.sent, s.fates, Update(ordinal, ReplyCoaching, Processing));
  }

  lemma {:induction false} TerminalKeepsCounts(
      cfg: Configuration, s: Session, ordinal: nat, state: UpdateState, cleanup: Cleanup, context: bool)
    requires Untold(s, ordinal) && state != Processing
    ensures var t := Terminal(cfg, s, ordinal, state, cleanup, context); Counts(t.sent, t.fates)
  {
    if s.state == Running {
      TerminalSend(s.sent, s.fates, Update(ordinal, Translation, state), Answered);
    } else {
      QuietFate(s.sent, s.fates, ordinal, Silenced);
      OtherKeepsCounts(cfg, Clean(Silence(s, ordinal), ordinal, cleanup), ordinal, context);
    }
  }

  lemma {:induction false} SinkKeepsCounts(s: Session, succeeds: bool)
    requires Counts(s.sent, s.fates)
    ensures Counts(SinkReturns(s, succeeds).sent, SinkReturns(s, succeeds).fates)
    ensures forall o: nat :: Told(SinkReturns(s, succeeds).fates, o) <==> Told(s.fates, o)
    ensures |SinkReturns(s, succeeds).fates| == |s.fates|
  {
    DiscardKeepsCounts(s.sent, s.fates);
  }

  lemma {:induction false} EnqueueKeepsCounts(cfg: Configuration, s: Session)
    requires Counts(s.sent, s.fates) && s.received == |s.fates|
    requires s.queue != [] ==> 0 < s.queue[0] <= |s.fates| && !Told(s.fates, s.queue[0])
    ensures Counts(Enqueued(cfg, s).sent, Enqueued(cfg, s).fates)
  {
    SameTold(s.sent, s.fates, s.fates + [Queued]);
    if cfg.TranslationOnly() && s.queue != [] {
      QuietFate(s.sent, s.fates, s.queue[0], Replaced);
      SameTold(s.sent, WithFate(s.fates, s.queue[0], Replaced), WithFate(s.fates, s.queue[0], Replaced) + [Queued]);
    } else if !(|s.queue| < cfg.maxQueueSize || s.queue == []) {
      DropKeepsCounts(cfg, s.(fates := s.fates + [Queued]), s.queue[0]);
    }
  }

  lemma {:induction false} DropKeepsCounts(cfg: Configuration, s: Session, ordinal: nat)
    requires Untold(s, ordinal)
    ensures Counts(PublishDropped(cfg, s, ordinal).sent, PublishDropped(cfg, s, ordinal).fates)
  {
    if cfg.translation {
      TerminalSend(s.sent, s.fates, Update(ordinal, Translation, Unavailable), Dropped);
    } else {
      QuietFate(s.sent, s.fates, ordinal, Untranslated);
      if Enabled(cfg) != [] {
        QuietSend(s.sent, WithFate(s.fates, ordinal, Untranslated), Update(ordinal, Enabled(cfg)[0], Unavailable));
      }
    }
  }

  lemma {:induction false} DequeueKeepsCounts(cfg: Configuration, s: Session, accepts: bool, context: bool)
    requires s.queue != [] && Untold(s, s.queue[0])
    ensures var t := Dequeued(cfg, s, accepts, context); Counts(t.sent, t.fates)
  {
    var ordinal := s.queue[0];
    var t := s.(queue := s.queue[1..], taken := ordinal);
    QuietFate(s.sent, s.fates, ordinal, Rejected);
    QuietFate(s.sent, s.fates, ordinal, Untranslated);
    QuietFate(s.sent, s.fates, ordinal, InWork);
    if !accepts {
      QuietSend(s.sent, WithFate(s.fates, ordinal, Rejected), Update(ordinal, ReplyCoaching, Failure));
    } else if !cfg.translation {
      OtherKeepsCounts(cfg, t.(fates := WithFate(s.fates, ordinal, Untranslated)), ordinal, context);
    } else {
      TerminalKeepsCounts(cfg, t.(fates := WithFate(s.fates, ordinal, InWork)), ordinal, Unavailable, KeepPending,
        context);
    }
  }

  lemma {:induction false} AdmissionKeepsCounts(cfg: Configuration, s: Session, ordinal: nat, context: bool)
    requires Untold(s, ordinal)
    ensures var t := Admitted(cfg, s, ordinal, context); Counts(t.sent, t.fates)
  {
    QuietFate(s.sent, s.fates, ordinal, Silenced);
    OtherKeepsCounts(cfg, Silence(s, ordinal), ordinal, context);
    TerminalKeepsCounts(cfg, s, ordinal, Unavailable, KeepPending, context);
    QuietSend(s.sent, s.fates, Update(ordinal, Translation, Processing));
  }

  lemma {:induction false} ProcessingKeepsCounts(
      cfg: Configuration, s: Session, ordinal: nat, generation: nat, published: bool, context: bool)
    requires Untold(s, ordinal)
    ensures var t := ProcessingPublished(cfg, s, ordinal, generation, published, context); Counts(t.sent, t.fates)
  {
    QuietFate(s.sent, s.fates, ordinal, Silenced);
    OtherKeepsCounts(cfg, Silence(s, ordinal), ordinal, context);
    TerminalKeepsCounts(cfg, s, ordinal, Unavailable, ClearLatest, context);
    TerminalKeepsCounts(cfg, s, ordinal, Unavailable, KeepPending, context);
  }

  // The segment of a worker that has not sent its terminal update yet.
  predicate PreTerminal(w: Worker) {
    w.AwaitingAdmission? || w.PublishingProcessing? || w.Operating? || w.CancellingOperation?
  }

  ghost predicate WorkerUntold(s: Session) {
    Counts(s.sent, s.fates) &&
    (PreTerminal(s.worker) ==> 0 < s.worker.ordinal <= |s.fates| && !Told(s.fates, s.worker.ordinal))
  }

  lemma {:induction false} PublishKeepsCounts(cfg: Configuration, before: Session, succeeds: bool, context: bool)
    requires WorkerUntold(before)
    ensures var t := PublishReturned(cfg, before, succeeds, context); Counts(t.sent, t.fates)
  {
    var s := SinkReturns(before, succeeds);
    SinkKeepsCounts(before, succeeds);
    match s.worker
    case PublishingProcessing(ordinal, generation) =>
      ProcessingKeepsCounts(cfg, s, ordinal, generation, succeeds && s.state == Running, context);
    case PublishingTerminal(ordinal, cleanup) => OtherKeepsCounts(cfg, Clean(s, ordinal, cleanup), ordinal, context);
    case PublishingOther(ordinal, _, _) => OtherKeepsCounts(cfg, s, ordinal, context);
    case _ =>
  }

  lemma {:induction false} OperationKeepsCounts(
      cfg: Configuration, s: Session, outcome: UpdateState, elapsedMs: int, context: bool)
    requires WorkerUntold(s) && (s.worker.RunningOther? ==> s.worker.capability != Translation) && outcome != Processing
    ensures var t := OperationReturned(cfg, s, outcome, elapsedMs, context); Counts(t.sent, t.fates)
  {
    match s.worker
    case Operating(ordinal, _) =>
      TerminalKeepsCounts(cfg, Timed(s, outcome, elapsedMs),
        ordinal, outcome, ClearActive, context);
    case RunningOther(ordinal, capability) =>
      QuietSend(s.sent, s.fates, Update(ordinal, capability, outcome));
      OtherKeepsCounts(cfg, s, ordinal, context);
    case _ =>
  }

  lemma {:induction false} EndingKeepsCounts(cfg: Configuration, s: Session, e: Event)
    requires WorkerUntold(s)
    requires e.Stop? || e.StopCompletes? || e.OperationBreaksWorker? || e.PublishBreaksWorker? || e.WorkerCancelled?
    ensures Counts(Step(cfg, s, e).sent, Step(cfg, s, e).fates)
  {
    DiscardKeepsCounts(s.sent, s.fates);
    if PreTerminal(s.worker) {
      QuietFate(s.sent, s.fates, s.worker.ordinal, Silenced);
      QuietFate(s.sent, s.fates, s.worker.ordinal, Crashed);
    }
  }

  lemma {:induction false} DropContinuesKeepsCounts(s: Session, ordinal: nat, succeeds: bool)
    requires Counts(s.sent, s.fates) && ordinal in s.droppers && Translation !in s.droppers[ordinal]
    ensures var t := DropContinues(SinkReturns(s, succeeds), ordinal); Counts(t.sent, t.fates)
  {
    var t := SinkReturns(s, succeeds);
    SinkKeepsCounts(s, succeeds);
    var rest := t.droppers[ordinal];
    if rest != [] {
      assert rest[0] in rest;
      QuietSend(t.sent, t.fates, Update(ordinal, rest[0], Unavailable));
    }
  }

  /* ---------- what each fate means ---------- */

  // A fate fits the rest of the state; busy is the segment in work, or 0.
  ghost predicate Fits(cfg: Configuration, fates: seq<Fate>, running: bool, pending: nat, busy: nat, ordinal: nat) {
    0 < ordinal <= |fates| ==>
      var fate := fates[ordinal - 1];
      (fate == Queued <==> ordinal > |fates| - pending) && (fate == InWork <==> ordinal == busy) &&
      (running ==> fate != Silenced && fate != Discarded) &&
      (fate == Replaced ==> cfg.TranslationOnly()) && (fate == Untranslated ==> !cfg.translation) &&
      (fate == Dropped || fate == Answered || fate == InWork ==> cfg.translation)
  }

  ghost predicate AllFit(cfg: Configuration, fates: seq<Fate>, running: bool, pending: nat, busy: nat) {
    forall o: nat {:trigger Fits(cfg, fates, running, pending, busy, o)} :: Fits(cfg, fates, running, pending, busy, o)
  }

  ghost predicate FatesFit(cfg: Configuration, s: Session, busy: nat) {
    |s.fates| == s.received && AllFit(cfg, s.fates, s.state == Running, |s.queue|, busy)
  }

  predicate Settled(cfg: Configuration, running: bool, fate: Fate) {
    fate != Queued && fate != InWork && (running ==> fate != Silenced && fate != Discarded) &&
    (fate == Replaced ==> cfg.TranslationOnly()) && (fate == Untranslated ==> !cfg.translation) &&
    (fate == Dropped || fate == Answered ==> cfg.translation)
  }

  lemma {:induction false} Settle(
      cfg: Configuration, fates: seq<Fate>, running: bool, pending: nat, busy: nat, fate: Fate)
    requires AllFit(cfg, fates, running, pending, busy) && 0 < busy <= |fates| && Settled(cfg, running, fate)
    ensures AllFit(cfg, WithFate(fates, busy, fate), running, pending, 0)
  {
    forall o: nat ensures Fits(cfg, WithFate(fates, busy, fate), running, pending, 0, o) {
      assert Fits(cfg, fates, running, pending, busy, o);
      assert Fits(cfg, fates, running, pending, busy, busy);
    }
  }

  // The front of the queue leaves it, to the worker or for good.
  lemma {:induction false} LeaveQueue(
      cfg: Configuration, fates: seq<Fate>, running: bool, pending: nat, busy: nat, ordinal: nat, fate: Fate)
    requires AllFit(cfg, fates, running, pending, busy) && 0 < pending <= |fates| && ordinal == |fates| - pending + 1
    requires busy < ordinal
    ensures Settled(cfg, running, fate) ==> AllFit(cfg, WithFate(fates, ordinal, fate), running, pending - 1, busy)
    ensures fate == InWork && busy == 0 && cfg.translation ==>
      AllFit(cfg, WithFate(fates, ordinal, fate), running, pending - 1, ordinal)
  {
    var after, fewer := WithFate(fates, ordinal, fate), pending - 1;
    forall o: nat
      ensures Settled(cfg, running, fate) ==> Fits(cfg, after, running, fewer, busy, o)
      ensures fate == InWork && busy == 0 && cfg.translation ==> Fits(cfg, after, running, fewer, ordinal, o)
    {
      assert Fits(cfg, fates, running, pending, busy, o);
    }
  }

  lemma {:induction false} JoinQueue(cfg: Configuration, fates: seq<Fate>, running: bool, pending: nat, busy: nat)
    requires AllFit(cfg, fates, running, pending, busy) && pending <= |fates| && busy <= |fates|
    ensures AllFit(cfg, fates + [Queued], running, pending + 1, busy)
  {
    var after, more := fates + [Queued], pending + 1;
    forall o: nat ensures Fits(cfg, after, running, more, busy, o) {
      assert Fits(cfg, fates, running, pending, busy, o);
    }
  }

  // A full queue: the newest joins and the oldest is settled.
  lemma {:induction false} PushOut(
      cfg: Configuration, fates: seq<Fate>, pending: nat, busy: nat, oldest: nat, fate: Fate)
    requires AllFit(cfg, fates, true, pending, busy) && 0 < pending <= |fates| && oldest == |fates| - pending + 1
    requires busy < oldest && Settled(cfg, true, fate)
    ensures AllFit(cfg, WithFate(fates + [Queued], oldest, fate), true, pending, busy)
  {
    JoinQueue(cfg, fates, true, pending, busy);
    LeaveQueue(cfg, fates + [Queued], true, pending + 1, busy, oldest, fate);
  }

  lemma {:induction false} DiscardFits(cfg: Configuration, fates: seq<Fate>, running: bool, pending: nat, busy: nat)
    requires AllFit(cfg, fates, running, pending, busy)
    ensures AllFit(cfg, Discard(fates), false, 0, busy)
  {
    forall o: nat ensures Fits(cfg, Discard(fates), false, 0, busy, o) {
      assert Fits(cfg, fates, running, pending, busy, o);
    }
  }

  /* ---------- the fates over every step ---------- */

  function Busy(s: Session): nat {
    if PreTerminal(s.worker) then s.taken else 0
  }

  lemma {:induction false} EnqueueFits(cfg: Configuration, s: Session)
    requires Sound(cfg, s) && FatesFit(cfg, s, Busy(s)) && s.state == Running
    ensures FatesFit(cfg, Enqueued(cfg, s), Busy(s)) && Busy(Enqueued(cfg, s)) == Busy(s)
  {
    var n := |s.queue|;
    if cfg.TranslationOnly() && s.queue != [] {
      LeaveQueue(cfg, s.fates, true, n, Busy(s), s.queue[0], Replaced);
      JoinQueue(cfg, WithFate(s.fates, s.queue[0], Replaced), true, n - 1, Busy(s));
    } else if n < cfg.maxQueueSize || s.queue == [] {
      JoinQueue(cfg, s.fates, true, n, Busy(s));
    } else {
      PushOut(cfg, s.fates, n, Busy(s), s.queue[0], if cfg.translation then Dropped else Untranslated);
    }
  }

  lemma {:induction false} OtherFits(cfg: Configuration, s: Session, ordinal: nat, context: bool)
    requires FatesFit(cfg, s, 0)
    ensures FatesFit(cfg, AfterTranslation(cfg, s, ordinal, context), 0)
    ensures Busy(AfterTranslation(cfg, s, ordinal, context)) == 0
    ensures FatesFit(cfg, AfterCoaching(cfg, s, ordinal), 0) && Busy(AfterCoaching(cfg, s, ordinal)) == 0
    ensures FatesFit(cfg, EndSegment(s), 0) && Busy(EndSegment(s)) == 0
  {
  }

  lemma {:induction false} TerminalFits(
      cfg: Configuration, s: Session, ordinal: nat, state: UpdateState, cleanup: Cleanup, context: bool)
    requires FatesFit(cfg, s, ordinal) && 0 < ordinal <= s.received && cfg.translation
    ensures var t := Terminal(cfg, s, ordinal, state, cleanup, context); FatesFit(cfg, t, 0) && Busy(t) == 0
  {
    if s.state == Running {
      Settle(cfg, s.fates, true, |s.queue|, ordinal, Answered);
    } else {
      Settle(cfg, s.fates, false, |s.queue|, ordinal, Silenced);
      OtherFits(cfg, Clean(Silence(s, ordinal), ordinal, cleanup), ordinal, context);
    }
  }

  lemma {:induction false} SinkFits(cfg: Configuration, s: Session, succeeds: bool, busy: nat)
    requires FatesFit(cfg, s, busy)
    ensures FatesFit(cfg, SinkReturns(s, succeeds), busy)
  {
    DiscardFits(cfg, s.fates, s.state == Running, |s.queue|, busy);
  }

  lemma {:induction false} DequeueFits(cfg: Configuration, s: Session, accepts: bool, context: bool)
    requires Sound(cfg, s) && FatesFit(cfg, s, 0) && s.queue != []
    ensures var t := Dequeued(cfg, s, accepts, context); FatesFit(cfg, t, Busy(t))
  {
    var ordinal := s.queue[0];
    var t := s.(queue := s.queue[1..], taken := ordinal);
    var fate := if !accepts then Rejected else if cfg.translation then InWork else Untranslated;
    LeaveQueue(cfg, s.fates, s.state == Running, |s.queue|, 0, ordinal, fate);
    var u := t.(fates := WithFate(s.fates, ordinal, fate));
    if !accepts {
      OtherFits(cfg, u, ordinal, context);
    } else if !cfg.translation {
      OtherFits(cfg, u, ordinal, context);
    } else {
      TerminalFits(cfg, u, ordinal, Unavailable, KeepPending, context);
    }
  }

  lemma {:induction false} SilenceFits(cfg: Configuration, s: Session, ordinal: nat)
    requires FatesFit(cfg, s, ordinal) && 0 < ordinal <= s.received && s.state != Running
    ensures FatesFit(cfg, Silence(s, ordinal), 0)
  {
    Settle(cfg, s.fates, false, |s.queue|, ordinal, Silenced);
  }

  // The worker's segment is one of those with a translation to do.
  ghost predicate WorkerFits(cfg: Configuration, s: Session) {
    FatesFit(cfg, s, Busy(s)) && WorkerSound(s) && s.taken <= s.received && (PreTerminal(s.worker) ==> cfg.translation)
  }

  lemma {:induction false} AdmissionFits(cfg: Configuration, s: Session, context: bool)
    requires WorkerFits(cfg, s) && s.worker.AwaitingAdmission?
    ensures var t := Admitted(cfg, s, s.worker.ordinal, context); FatesFit(cfg, t, Busy(t))
  {
    var ordinal := s.worker.ordinal;
    if s.state != Running {
      SilenceFits(cfg, s, ordinal);
      OtherFits(cfg, Silence(s, ordinal), ordinal, context);
    } else {
      TerminalFits(cfg, s, ordinal, Unavailable, KeepPending, context);
    }
  }

  lemma {:induction false} ProcessingFits(cfg: Configuration, s: Session, published: bool, context: bool)
    requires WorkerFits(cfg, s) && s.worker.PublishingProcessing? && (published <==> s.state == Running)
    ensures var t := ProcessingPublished(cfg, s, s.worker.ordinal, s.worker.generation, published, context);
            FatesFit(cfg, t, Busy(t))
  {
    var ordinal := s.worker.ordinal;
    if !published {
      SilenceFits(cfg, s, ordinal);
      OtherFits(cfg, Silence(s, ordinal), ordinal, context);
    } else {
      TerminalFits(cfg, s, ordinal, Unavailable, ClearLatest, context);
      TerminalFits(cfg, s, ordinal, Unavailable, KeepPending, context);
    }
  }

  lemma {:induction false} PublishFits(cfg: Configuration, before: Session, succeeds: bool, context: bool)
    requires WorkerFits(cfg, before) && Sound(cfg, before)
    ensures var t := PublishReturned(cfg, before, succeeds, context); FatesFit(cfg, t, Busy(t))
  {
    var s := SinkReturns(before, succeeds);
    SinkFits(cfg, before, succeeds, Busy(before));
    SinkKeepsQueue(cfg, before, succeeds);
    match s.worker
    case PublishingProcessing(_, _) => ProcessingFits(cfg, s, succeeds && s.state == Running, context);
    case PublishingTerminal(ordinal, cleanup) => OtherFits(cfg, Clean(s, ordinal, cleanup), ordinal, context);
    case PublishingRejected(ordinal) => OtherFits(cfg, s, ordinal, context);
    case PublishingOther(ordinal, _, _) => OtherFits(cfg, s, ordinal, context);
    case _ =>
  }

  lemma {:induction false} OperationFits(
      cfg: Configuration, s: Session, outcome: UpdateState, elapsedMs: int, context: bool)
    requires WorkerFits(cfg, s)
    ensures var t := OperationReturned(cfg, s, outcome, elapsedMs, context); FatesFit(cfg, t, Busy(t))
  {
    match s.worker
    case Operating(ordinal, _) =>
      TerminalFits(cfg, Timed(s, outcome, elapsedMs),
        ordinal, outcome, ClearActive, context);
    case RunningOther(ordinal, _) => OtherFits(cfg, s, ordinal, context);
    case _ =>
  }

  lemma {:induction false} EndingFits(cfg: Configuration, s: Session, e: Event)
    requires WorkerFits(cfg, s) && QueueSound(cfg, s)
    requires e.Stop? || e.StopCompletes? || e.OperationBreaksWorker? || e.PublishBreaksWorker? || e.WorkerCancelled?
    ensures FatesFit(cfg, Step(cfg, s, e), Busy(Step(cfg, s, e)))
  {
    if e.Stop? || e.StopCompletes? {
      DiscardFits(cfg, s.fates, s.state == Running, |s.queue|, Busy(s));
    } else {
      InterruptionFits(cfg, s, if e.WorkerCancelled? then Silenced else Crashed);
    }
  }

  lemma {:induction false} InterruptionFits(cfg: Configuration, s: Session, fate: Fate)
    requires WorkerFits(cfg, s) && (fate == Crashed || fate == Silenced)
    ensures fate == Crashed || s.state != Running ==> FatesFit(cfg, Interrupted(s, fate), 0)
  {
    if PreTerminal(s.worker) && (fate == Crashed || s.state != Running) {
      Settle(cfg, s.fates, s.state == Running, |s.queue|, Busy(s), fate);
    }
  }

  /* ---------- whole runs ---------- */

  predicate NoTranslation(s: Session) {
    (s.worker.PublishingOther? || s.worker.RunningOther? ==> s.worker.capability != Translation) &&
    forall o :: o in s.droppers ==> Translation !in s.droppers[o]
  }

  ghost predicate RunSound(cfg: Configuration, s: Session) {
    Sound(cfg, s) && WorkerFits(cfg, s) && Counts(s.sent, s.fates) && NoTranslation(s)
  }

  /* ---------- what single steps may change ---------- */

  // A provider call started: the newest pending translation, in the pause it was admitted in.
  ghost predicate ProviderStarts(s: Session, e: Event, t: Session) {
    s.worker.PublishingProcessing? && e.PublishReturns? && e.succeeds && s.state == Running &&
    s.latest == Some(s.worker.ordinal) && t.calls == s.calls + [s.worker.ordinal] &&
    s.gate.active == 0 && s.gate.generation == s.worker.generation &&
    t.worker == Operating(s.worker.ordinal, s.worker.generation)
  }

  // The worker was admitted, and keeps the generation it was admitted in.
  ghost predicate AdmissionPasses(s: Session, e: Event, t: Session) {
    e.AdmissionReturns? && s.worker.AwaitingAdmission? && PriorityGate.Admits(s.gate, s.now, s.worker.estimateMs) &&
    t.worker == PublishingProcessing(s.worker.ordinal, s.gate.generation)
  }

  ghost predicate Framed(cfg: Configuration, s: Session, e: Event, t: Session) {
    t.gate.generation == s.gate.generation + (if e.SttStart? then 1 else 0) &&
    (NoTranslation(s) ==> NoTranslation(t)) &&
    (PreTerminal(t.worker) ==> cfg.translation || PreTerminal(s.worker)) &&
    (t.calls == s.calls || ProviderStarts(s, e, t)) &&
    (t.worker.PublishingProcessing? ==> t.worker == s.worker || AdmissionPasses(s, e, t)) &&
    (t.taken == s.taken || Takes(s, t)) && (t.worker.AwaitingAdmission? ==> t.worker == s.worker || Takes(s, t)) &&
    (s.worker.Ended? && Begun(s) ==> t.worker.Ended? && Begun(t) && t.taken == s.taken && t.calls == s.calls) &&
    EndsFittingly(s, e, t)
  }

  // A worker is only ended outside RUNNING or by a break, and RUNNING is entered only once.
  ghost predicate EndsFittingly(s: Session, e: Event, t: Session) {
    (Breaks(s, e) ==> t.worker.Ended?) &&
    ((s.terminated ==> s.state != Running) && t.state == Running ==>
      (t.worker.Ended? ==> s.worker.Ended? || Breaks(s, e)) && (s.state == Running || !Begun(s)))
  }

  // The worker took the front of the queue.
  ghost predicate Takes(s: Session, t: Session) {
    s.worker.Waiting? && s.queue != [] && t.taken == s.queue[0] && t.calls == s.calls
  }

  // What the tail of a segment's processing leaves alone.
  ghost predicate Quiet(s: Session, t: Session) {
    t.gate == s.gate && t.calls == s.calls && t.droppers == s.droppers && t.taken == s.taken &&
      !PreTerminal(t.worker) &&
    !t.worker.RunningOther? && (t.worker.PublishingOther? ==> t.worker.capability != Translation) &&
    t.state == s.state && t.terminated == s.terminated && (t.worker.Ended? ==> t.state != Running)
  }

  lemma {:induction false} OtherIsQuiet(cfg: Configuration, s: Session, ordinal: nat, context: bool)
    ensures Quiet(s, AfterTranslation(cfg, s, ordinal, context))
    ensures Quiet(s, AfterCoaching(cfg, s, ordinal)) && Quiet(s, EndSegment(s))
  {
  }

  lemma {:induction false} TerminalIsQuiet(
      cfg: Configuration, s: Session, ordinal: nat, state: UpdateState, cleanup: Cleanup, context: bool)
    ensures Quiet(s, Terminal(cfg, s, ordinal, state, cleanup, context))
  {
    OtherIsQuiet(cfg, Clean(Silence(s, ordinal), ordinal, cleanup), ordinal, context);
  }

  lemma {:induction false} DequeueIsFramed(cfg: Configuration, s: Session, accepts: bool, context: bool)
    requires s.queue != [] && s.worker.Waiting?
    ensures Framed(cfg, s, Dequeue(accepts, context), Dequeued(cfg, s, accepts, context))
  {
    var ordinal := s.queue[0];
    var t := s.(queue := s.queue[1..], taken := ordinal);
    OtherIsQuiet(cfg, t.(fates := WithFate(s.fates, ordinal, Rejected)), ordinal, context);
    OtherIsQuiet(cfg, t.(fates := WithFate(s.fates, ordinal, Untranslated)), ordinal, context);
    TerminalIsQuiet(cfg, t.(fates := WithFate(s.fates, ordinal, InWork)), ordinal, Unavailable, KeepPending, context);
  }

  lemma {:induction false} AdmissionIsFramed(cfg: Configuration, s: Session, context: bool)
    requires s.worker.AwaitingAdmission? && PriorityGate.Admits(s.gate, s.now, s.worker.estimateMs)
    ensures Framed(cfg, s, AdmissionReturns(context), Admitted(cfg, s, s.worker.ordinal, context))
  {
    OtherIsQuiet(cfg, Silence(s, s.worker.ordinal), s.worker.ordinal, context);
    TerminalIsQuiet(cfg, s, s.worker.ordinal, Unavailable, KeepPending, context);
  }

  lemma {:induction false} ProcessingIsFramed(cfg: Configuration, before: Session, succeeds: bool, context: bool)
    requires before.worker.PublishingProcessing?
    ensures Framed(cfg, before, PublishReturns(succeeds, context), PublishReturned(cfg, before, succeeds, context))
  {
    var s := SinkReturns(before, succeeds);
    var ordinal := s.worker.ordinal;
    OtherIsQuiet(cfg, Silence(s, ordinal), ordinal, context);
    TerminalIsQuiet(cfg, s, ordinal, Unavailable, ClearLatest, context);
    TerminalIsQuiet(cfg, s, ordinal, Unavailable, KeepPending, context);
  }

  lemma {:induction false} OtherPublishIsFramed(cfg: Configuration, before: Session, succeeds: bool, context: bool)
    requires before.worker.PublishingOther? || before.worker.PublishingRejected?
    ensures Framed(cfg, before, PublishReturns(succeeds, context), PublishReturned(cfg, before, succeeds, context))
  {
    var s := SinkReturns(before, succeeds);
    OtherIsQuiet(cfg, s, s.worker.ordinal, context);
  }

  lemma {:induction false} TerminalPublishIsFramed(cfg: Configuration, before: Session, succeeds: bool, context: bool)
    requires before.worker.PublishingTerminal?
    ensures Framed(cfg, before, PublishReturns(succeeds, context), PublishReturned(cfg, before, succeeds, context))
  {
    var s := SinkReturns(before, succeeds);
    OtherIsQuiet(cfg, Clean(s, s.worker.ordinal, s.worker.cleanup), s.worker.ordinal, context);
  }

  lemma {:induction false} PublishIsFramed(cfg: Configuration, s: Session, succeeds: bool, context: bool)
    ensures Framed(cfg, s, PublishReturns(succeeds, context), PublishReturned(cfg, s, succeeds, context))
  {
    match s.worker
    case PublishingProcessing(_, _) => ProcessingIsFramed(cfg, s, succeeds, context);
    case PublishingTerminal(_, _) => TerminalPublishIsFramed(cfg, s, succeeds, context);
    case PublishingRejected(_) => OtherPublishIsFramed(cfg, s, succeeds, context);
    case PublishingOther(_, _, _) => OtherPublishIsFramed(cfg, s, succeeds, context);
    case _ =>
  }

  lemma {:induction false} OperationIsFramed(
      cfg: Configuration, s: Session, outcome: UpdateState, elapsedMs: int, context: bool)
    ensures Framed(cfg, s, OperationReturns(outcome, elapsedMs, context), OperationReturned(cfg, s, outcome,
      elapsedMs, context))
  {
    match s.worker
    case Operating(ordinal, _) =>
      TerminalIsQuiet(cfg, Timed(s, outcome, elapsedMs),
        ordinal, outcome, ClearActive, context);
    case RunningOther(ordinal, _) => OtherIsQuiet(cfg, s, ordinal, context);
    case _ =>
  }

  lemma {:induction false} EnqueueIsFramed(cfg: Configuration, s: Session)
    requires s.state == Running
    ensures Framed(cfg, s, Enqueue, Enqueued(cfg, s))
  {
    assert Enabled(cfg) != [] ==> Translation !in Enabled(cfg)[1..];
  }

  lemma {:induction false} DropIsFramed(cfg: Configuration, s: Session, ordinal: nat, succeeds: bool)
    requires ordinal in s.droppers
    ensures Framed(cfg, s, DropPublishReturns(ordinal, succeeds), DropContinues(SinkReturns(s, succeeds), ordinal))
  {
  }

  lemma {:induction false} InterruptionIsQuiet(s: Session, fate: Fate)
    ensures var t := Interrupted(s, fate);
            t.worker.Ended? && t.gate == s.gate && t.calls == s.calls && t.droppers == s.droppers &&
            t.taken == s.taken && t.state == s.state && t.terminated == s.terminated
  {
  }

  lemma {:induction false} EndingIsFramed(cfg: Configuration, s: Session, e: Event)
    requires e.Stop? || e.StopCompletes? || e.OperationBreaksWorker? || e.PublishBreaksWorker? || e.WorkerCancelled?
    ensures Framed(cfg, s, e, Step(cfg, s, e))
  {
    InterruptionIsQuiet(s, if e.WorkerCancelled? then Silenced else Crashed);
  }

  lemma {:induction false} EnvironmentIsFramed(cfg: Configuration, s: Session, e: Event)
    requires e.Start? || e.DropPublishBreaks? || e.SttPreempts? || e.SttStart? || e.SttFinish? || e.Report? || e.Tick?
    ensures Framed(cfg, s, e, Step(cfg, s, e))
  {
  }

  lemma {:induction false} StepIsFramed(cfg: Configuration, s: Session, e: Event)
    ensures Framed(cfg, s, e, Step(cfg, s, e))
  {
    match e
    case Enqueue => if s.state == Running { EnqueueIsFramed(cfg, s); }
    case Dequeue(accepts, context) =>
      if s.worker.Waiting? && s.queue != [] { DequeueIsFramed(cfg, s, accepts, context); }
    case AdmissionReturns(context) =>
      if s.worker.AwaitingAdmission? &&
        PriorityGate.Admits(s.gate, s.now, s.worker.estimateMs) { AdmissionIsFramed(cfg, s, context); }
    case PublishReturns(succeeds, context) => PublishIsFramed(cfg, s, succeeds, context);
    case OperationReturns(outcome, elapsedMs, context) => OperationIsFramed(cfg, s, outcome, elapsedMs, context);
    case CancelledOperationReturns(context) =>
      if s.worker.CancellingOperation? { TerminalIsQuiet(cfg, s, s.worker.ordinal, Unavailable, ClearActive, context); }
    case DropPublishReturns(ordinal, succeeds) =>
      if ordinal in s.droppers { DropIsFramed(cfg, s, ordinal, succeeds); }
    case Stop => EndingIsFramed(cfg, s, e);
    case StopCompletes => EndingIsFramed(cfg, s, e);
    case OperationBreaksWorker => EndingIsFramed(cfg, s, e);
    case PublishBreaksWorker => EndingIsFramed(cfg, s, e);
    case WorkerCancelled => EndingIsFramed(cfg, s, e);
    case _ => EnvironmentIsFramed(cfg, s, e);
  }

  lemma {:induction false} StepKeepsCounts(cfg: Configuration, s: Session, e: Event)
    requires RunSound(cfg, s)
    ensures Counts(Step(cfg, s, e).sent, Step(cfg, s, e).fates)
  {
    var pending, running := |s.queue|, s.state == Running;
    if PreTerminal(s.worker) {
      assert Fits(cfg, s.fates, running, pending, Busy(s), s.taken);
    }
    if s.queue != [] {
      assert Fits(cfg, s.fates, running, pending, Busy(s), s.queue[0]);
    }
    match e
    case Enqueue => if s.state == Running { EnqueueKeepsCounts(cfg, s); }
    case Dequeue(accepts, context) =>
      if s.worker.Waiting? && s.queue != [] { DequeueKeepsCounts(cfg, s, accepts, context); }
    case AdmissionReturns(context) =>
      if s.worker.AwaitingAdmission? { AdmissionKeepsCounts(cfg, s, s.worker.ordinal, context); }
    case PublishReturns(succeeds, context) => PublishKeepsCounts(cfg, s, succeeds, context);
    case OperationReturns(outcome, elapsedMs, context) =>
      if outcome != Processing { OperationKeepsCounts(cfg, s, outcome, elapsedMs, context); }
    case CancelledOperationReturns(context) =>
      if s.worker.CancellingOperation? {
        TerminalKeepsCounts(cfg, s, s.worker.ordinal, Unavailable, ClearActive, context);
      }
    case DropPublishReturns(ordinal, succeeds) =>
      if ordinal in s.droppers { DropContinuesKeepsCounts(s, ordinal, succeeds); }
    case Stop => EndingKeepsCounts(cfg, s, e);
    case StopCompletes => EndingKeepsCounts(cfg, s, e);
    case OperationBreaksWorker => EndingKeepsCounts(cfg, s, e);
    case PublishBreaksWorker => EndingKeepsCounts(cfg, s, e);
    case WorkerCancelled => EndingKeepsCounts(cfg, s, e);
    case _ =>
  }

  lemma {:induction false} EnvironmentFits(cfg: Configuration, s: Session, e: Event)
    requires WorkerFits(cfg, s) && QueueSound(cfg, s)
    requires e.Start? || e.DropPublishBreaks? || e.SttPreempts? || e.SttStart? || e.SttFinish? || e.Report? || e.Tick?
    ensures FatesFit(cfg, Step(cfg, s, e), Busy(Step(cfg, s, e)))
  {
    if e.Start? && Started(s) != s {
      forall o: nat ensures Fits(cfg, s.fates, true, 0, 0, o) {}
    }
  }

  lemma {:induction false} StepKeepsFates(cfg: Configuration, s: Session, e: Event)
    requires RunSound(cfg, s)
    ensures FatesFit(cfg, Step(cfg, s, e), Busy(Step(cfg, s, e)))
  {
    match e
    case Enqueue => if s.state == Running { EnqueueFits(cfg, s); }
    case Dequeue(accepts, context) =>
      if s.worker.Waiting? && s.queue != [] { DequeueFits(cfg, s, accepts, context); }
    case AdmissionReturns(context) => if s.worker.AwaitingAdmission? { AdmissionFits(cfg, s, context); }
    case PublishReturns(succeeds, context) => PublishFits(cfg, s, succeeds, context);
    case OperationReturns(outcome, elapsedMs, context) => OperationFits(cfg, s, outcome, elapsedMs, context);
    case CancelledOperationReturns(context) =>
      if s.worker.CancellingOperation? { TerminalFits(cfg, s, s.worker.ordinal, Unavailable, ClearActive, context); }
    case DropPublishReturns(ordinal, succeeds) => SinkFits(cfg, s, succeeds, Busy(s));
    case Stop => EndingFits(cfg, s, e);
    case StopCompletes => EndingFits(cfg, s, e);
    case OperationBreaksWorker => EndingFits(cfg, s, e);
    case PublishBreaksWorker => EndingFits(cfg, s, e);
    case WorkerCancelled => EndingFits(cfg, s, e);
    case _ => EnvironmentFits(cfg, s, e);
  }

  // Every reachable state is sound, whatever the environment does.
  lemma {:induction false} EveryRunIsSound(cfg: Configuration, gate: PriorityGate.Gate, now: real, trace: seq<Event>)
    ensures RunSound(cfg, Run(cfg, Initial(gate, now), trace))
    decreases |trace|
  {
    if trace == [] {
      forall o: nat ensures Accounted([], [], o) {}
    } else {
      var s, e := Run(cfg, Initial(gate, now), trace[..|trace| - 1]), trace[|trace| - 1];
      EveryRunIsSound(cfg, gate, now, trace[..|trace| - 1]);
      StepKeepsQueue(cfg, s, e);
      StepKeepsCounts(cfg, s, e);
      StepKeepsFates(cfg, s, e);
      StepIsFramed(cfg, s, e);
    }
  }

  // While the session runs, every segment that has left the queue and the worker was told exactly once,
  // unless it was coalesced away in a translation-only session, refused by the context, or broke the
  // worker; and no segment is ever told twice.
  lemma {:induction false} ToldExactlyOnce(
      cfg: Configuration, gate: PriorityGate.Gate, now: real, trace: seq<Event>, ordinal: nat)
    requires var s := Run(cfg, Initial(gate, now), trace); cfg.translation && 0 < ordinal <= s.received
    ensures var s := Run(cfg, Initial(gate, now), trace);
            |s.fates| == s.received && Terminals(s.sent, ordinal) <= 1 &&
            (ordinal in s.queue <==> s.fates[ordinal - 1] == Queued) &&
            (s.state == Running ==>
              var spared := s.fates[ordinal - 1];
              (Terminals(s.sent, ordinal) == 1 <==>
                ordinal !in s.queue && !(PreTerminal(s.worker) && s.worker.ordinal == ordinal) &&
                spared != Replaced && spared != Rejected && spared != Crashed) &&
              (spared == Replaced ==> cfg.TranslationOnly()))
  {
    var s := Run(cfg, Initial(gate, now), trace);
    EveryRunIsSound(cfg, gate, now, trace);
    assert Accounted(s.sent, s.fates, ordinal);
    assert Fits(cfg, s.fates, s.state == Running, |s.queue|, Busy(s), ordinal);
    if ordinal > s.received - |s.queue| {
      assert s.queue[ordinal - (s.received - |s.queue|) - 1] == ordinal;
    }
  }

  // A non-empty queue means the newest segment's translation is pending, and the queue never outgrows its bound.
  lemma {:induction false} QueueKeepsTheNewest(
      cfg: Configuration, gate: PriorityGate.Gate, now: real, trace: seq<Event>)
    ensures var s := Run(cfg, Initial(gate, now), trace);
            |s.queue| <= (if cfg.TranslationOnly() || cfg.maxQueueSize == 0 then 1 else cfg.maxQueueSize) &&
            (forall i, j :: 0 <= i < j < |s.queue| ==> s.queue[i] < s.queue[j]) &&
            (s.queue != [] ==> s.queue[|s.queue| - 1] == s.received) &&
            (s.queue != [] && cfg.translation ==> s.latest == Some(s.received)) &&
            (Holds(s.worker).Some? ==> forall i :: 0 <= i < |s.queue| ==> Holds(s.worker).value < s.queue[i])
  {
    EveryRunIsSound(cfg, gate, now, trace);
  }

  /* ---------- whose answers are delivered ---------- */

  // A provider answers while the session runs.
  predicate ProviderAnswers(s: Session, e: Event) {
    e.OperationReturns? && e.outcome != Processing && s.state == Running &&
    (s.worker.Operating? || s.worker.RunningOther?)
  }

  // The context refuses a segment while the session runs.
  predicate Refuses(s: Session, e: Event) {
    e.Dequeue? && !e.contextAccepts && s.state == Running && s.worker.Waiting? && s.queue != []
  }

  // The step calls for this update: a provider's own answer for its segment and capability, or a refusal.
  predicate CallsFor(s: Session, e: Event, u: Update) {
    (ProviderAnswers(s, e) &&
      u == Update(s.worker.ordinal, if s.worker.Operating? then Translation else s.worker.capability, e.outcome)) ||
    (Refuses(s, e) && u == Update(s.queue[0], ReplyCoaching, Failure))
  }

  predicate Decided(u: Update) {
    u.state == Ready || u.state == Failure
  }

  // At most one update was added, and not one that speaks for a provider.
  ghost predicate AddsNoAnswer(before: seq<Update>, after: seq<Update>) {
    before <= after && |after| <= |before| + 1 && (after != before ==> !Decided(after[|before|]))
  }

  // A step adds at most one update: the one that is called for, if any, and otherwise no READY and no failure.
  ghost predicate SendsFittingly(s: Session, e: Event, t: Session) {
    (forall u {:trigger CallsFor(s, e, u)} :: CallsFor(s, e, u) ==> t.sent == s.sent + [u]) &&
    (ProviderAnswers(s, e) || Refuses(s, e) || AddsNoAnswer(s.sent, t.sent))
  }

  lemma {:induction false} OtherAddsNoAnswer(cfg: Configuration, s: Session, ordinal: nat, context: bool)
    ensures AddsNoAnswer(s.sent, AfterTranslation(cfg, s, ordinal, context).sent)
    ensures AddsNoAnswer(s.sent, AfterCoaching(cfg, s, ordinal).sent) && EndSegment(s).sent == s.sent
  {
  }

  lemma {:induction false} TerminalSends(
      cfg: Configuration, s: Session, ordinal: nat, state: UpdateState, cleanup: Cleanup, context: bool)
    ensures var t := Terminal(cfg, s, ordinal, state, cleanup, context);
            if s.state == Running then t.sent == s.sent + [Update(ordinal, Translation, state)]
            else AddsNoAnswer(s.sent, t.sent)
  {
    OtherAddsNoAnswer(cfg, Clean(Silence(s, ordinal), ordinal, cleanup), ordinal, context);
  }

  lemma {:induction false} DequeueSends(cfg: Configuration, s: Session, accepts: bool, context: bool)
    requires s.worker.Waiting? && s.queue != []
    ensures SendsFittingly(s, Dequeue(accepts, context), Dequeued(cfg, s, accepts, context))
  {
    var ordinal := s.queue[0];
    var t := s.(queue := s.queue[1..], taken := ordinal);
    OtherAddsNoAnswer(cfg, t.(fates := WithFate(s.fates, ordinal, Untranslated)), ordinal, context);
    TerminalSends(cfg, t.(fates := WithFate(s.fates, ordinal, InWork)), ordinal, Unavailable, KeepPending, context);
  }

  lemma {:induction false} AdmissionSends(cfg: Configuration, s: Session, ordinal: nat, context: bool)
    ensures AddsNoAnswer(s.sent, Admitted(cfg, s, ordinal, context).sent)
  {
    OtherAddsNoAnswer(cfg, Silence(s, ordinal), ordinal, context);
    TerminalSends(cfg, s, ordinal, Unavailable, KeepPending, context);
  }

  lemma {:induction false} ProcessingSends(
      cfg: Configuration, s: Session, ordinal: nat, generation: nat, published: bool, context: bool)
    ensures AddsNoAnswer(s.sent, ProcessingPublished(cfg, s, ordinal, generation, published, context).sent)
  {
    OtherAddsNoAnswer(cfg, Silence(s, ordinal), ordinal, context);
    TerminalSends(cfg, s, ordinal, Unavailable, ClearLatest, context);
    TerminalSends(cfg, s, ordinal, Unavailable, KeepPending, context);
  }

  lemma {:induction false} PublishSends(cfg: Configuration, before: Session, succeeds: bool, context: bool)
    ensures AddsNoAnswer(before.sent, PublishReturned(cfg, before, succeeds, context).sent)
  {
    var s := SinkReturns(before, succeeds);
    match s.worker
    case PublishingProcessing(ordinal, generation) =>
      ProcessingSends(cfg, s, ordinal, generation, succeeds && s.state == Running, context);
    case PublishingTerminal(ordinal, cleanup) => OtherAddsNoAnswer(cfg, Clean(s, ordinal, cleanup), ordinal, context);
    case PublishingOther(ordinal, _, _) => OtherAddsNoAnswer(cfg, s, ordinal, context);
    case _ =>
  }

  lemma {:induction false} OperationSends(
      cfg: Configuration, s: Session, outcome: UpdateState, elapsedMs: int, context: bool)
    requires outcome != Processing
    ensures SendsFittingly(s, OperationReturns(outcome, elapsedMs, context),
      OperationReturned(cfg, s, outcome, elapsedMs, context))
  {
    match s.worker
    case Operating(ordinal, _) =>
      TerminalSends(cfg, Timed(s, outcome, elapsedMs), ordinal, outcome, ClearActive, context);
    case RunningOther(ordinal, _) => OtherAddsNoAnswer(cfg, s, ordinal, context);
    case _ =>
  }

  lemma {:induction false} InterruptionSends(s: Session, fate: Fate)
    ensures Interrupted(s, fate).sent == s.sent
  {
  }

  lemma {:induction false} StepSends(cfg: Configuration, s: Session, e: Event)
    ensures SendsFittingly(s, e, Step(cfg, s, e))
  {
    match e
    case Dequeue(accepts, context) =>
      if s.worker.Waiting? && s.queue != [] { DequeueSends(cfg, s, accepts, context); }
    case AdmissionReturns(context) =>
      if s.worker.AwaitingAdmission? { AdmissionSends(cfg, s, s.worker.ordinal, context); }
    case PublishReturns(succeeds, context) => PublishSends(cfg, s, succeeds, context);
    case OperationReturns(outcome, elapsedMs, context) =>
      if outcome != Processing { OperationSends(cfg, s, outcome, elapsedMs, context); }
    case CancelledOperationReturns(context) =>
      if s.worker.CancellingOperation? { TerminalSends(cfg, s, s.worker.ordinal, Unavailable, ClearActive, context); }
    case OperationBreaksWorker => InterruptionSends(s, Crashed);
    case PublishBreaksWorker => InterruptionSends(s, Crashed);
    case WorkerCancelled => InterruptionSends(s, Silenced);
    case _ => EnvironmentSends(cfg, s, e);
  }

  lemma {:induction false} EnvironmentSends(cfg: Configuration, s: Session, e: Event)
    requires e.Enqueue? || e.DropPublishReturns? || e.Stop? || e.StopCompletes? || e.Start? || e.DropPublishBreaks? ||
      e.SttPreempts? || e.SttStart? || e.SttFinish? || e.Report? || e.Tick?
    ensures AddsNoAnswer(s.sent, Step(cfg, s, e).sent)
  {
  }

  // Somewhere in the run a step called for the update.
  ghost predicate CalledForIn(cfg: Configuration, s: Session, trace: seq<Event>, u: Update) {
    trace != [] &&
    (CalledForIn(cfg, s, trace[..|trace| - 1], u) || CallsFor(Run(cfg, s, trace[..|trace| - 1]), trace[|trace| - 1], u))
  }

  // Providers are quoted faithfully, over every run: READY or a failure is sent for a segment and a capability if
  // and only if its provider answered just that while the session ran, or the context refused the segment.
  lemma {:induction false} AnswersAreDeliveredIff(
      cfg: Configuration, gate: PriorityGate.Gate, now: real, trace: seq<Event>, u: Update)
    requires u.state == Ready || u.state == Failure
    ensures u in Run(cfg, Initial(gate, now), trace).sent <==> CalledForIn(cfg, Initial(gate, now), trace, u)
    decreases |trace|
  {
    if trace != [] {
      var s, e := Run(cfg, Initial(gate, now), trace[..|trace| - 1]), trace[|trace| - 1];
      AnswersAreDeliveredIff(cfg, gate, now, trace[..|trace| - 1], u);
      StepSends(cfg, s, e);
      NewUpdate(s, e, Step(cfg, s, e), u);
    }
  }

  lemma {:induction false} NewUpdate(s: Session, e: Event, t: Session, u: Update)
    requires SendsFittingly(s, e, t) && Decided(u)
    ensures u in t.sent <==> u in s.sent || CallsFor(s, e, u)
  {
    if Refuses(s, e) {
      assert CallsFor(s, e, Update(s.queue[0], ReplyCoaching, Failure));
    } else if ProviderAnswers(s, e) {
      var c := if s.worker.Operating? then Translation else s.worker.capability;
      assert CallsFor(s, e, Update(s.worker.ordinal, c, e.outcome));
    } else if t.sent != s.sent {
      assert t.sent == s.sent + [t.sent[|s.sent|]];
    }
  }

  // When a translation's provider answers while the session runs, exactly its answer is sent at once, whatever it
  // is, and the segment counts as answered.
  lemma {:induction false} TranslationAnswerIsSent(
      cfg: Configuration, gate: PriorityGate.Gate, now: real, trace: seq<Event>, outcome: UpdateState, elapsedMs: int,
      context: bool)
    requires var s := Run(cfg, Initial(gate, now), trace); s.state == Running && s.worker.Operating?
    requires outcome != Processing
    ensures var s := Run(cfg, Initial(gate, now), trace);
            var t := Run(cfg, Initial(gate, now), trace + [OperationReturns(outcome, elapsedMs, context)]);
            t.sent == s.sent + [Update(s.taken, Translation, outcome)] && s.worker.ordinal == s.taken &&
            0 < s.taken <= |s.fates| && t.fates == s.fates[s.taken - 1 := Answered]
  {
    var s := Run(cfg, Initial(gate, now), trace);
    EveryRunIsSound(cfg, gate, now, trace);
    StepSends(cfg, s, OperationReturns(outcome, elapsedMs, context));
    assert CallsFor(s, OperationReturns(outcome, elapsedMs, context), Update(s.taken, Translation, outcome));
    var _, _ := After(cfg, Initial(gate, now), trace, s, OperationReturns(outcome, elapsedMs, context));
  }

  // The durations of the translations that became READY, in order.
  ghost function ReadyTimes(cfg: Configuration, s: Session, trace: seq<Event>): seq<int> {
    if trace == [] then []
    else
      var before, e := trace[..|trace| - 1], trace[|trace| - 1];
      ReadyTimes(cfg, s, before) +
      if e.OperationReturns? && e.outcome == Ready && Run(cfg, s, before).worker.Operating? then [e.elapsedMs] else []
  }

  // Estimates rest on the last four of them.
  lemma {:induction false} DurationsAreTheLastFour(
      cfg: Configuration, gate: PriorityGate.Gate, now: real, trace: seq<Event>)
    ensures var times, s := ReadyTimes(cfg, Initial(gate, now), trace), Run(cfg, Initial(gate, now), trace);
            s.durations == times[if |times| <= 4 then 0 else |times| - 4..]
    decreases |trace|
  {
    if trace != [] {
      DurationsAreTheLastFour(cfg, gate, now, trace[..|trace| - 1]);
      StepKeepsDurations(cfg, Run(cfg, Initial(gate, now), trace[..|trace| - 1]), trace[|trace| - 1]);
    }
  }

  lemma {:induction false} OtherKeepsDurations(cfg: Configuration, s: Session, ordinal: nat, context: bool)
    ensures AfterTranslation(cfg, s, ordinal, context).durations == s.durations
    ensures AfterCoaching(cfg, s, ordinal).durations == s.durations && EndSegment(s).durations == s.durations
  {
  }

  lemma {:induction false} TerminalKeepsDurations(
      cfg: Configuration, s: Session, ordinal: nat, state: UpdateState, cleanup: Cleanup, context: bool)
    ensures Terminal(cfg, s, ordinal, state, cleanup, context).durations == s.durations
  {
    OtherKeepsDurations(cfg, Clean(Silence(s, ordinal), ordinal, cleanup), ordinal, context);
  }

  lemma {:induction false} DequeueKeepsDurations(cfg: Configuration, s: Session, accepts: bool, context: bool)
    requires s.queue != []
    ensures Dequeued(cfg, s, accepts, context).durations == s.durations
  {
    var ordinal := s.queue[0];
    var t := s.(queue := s.queue[1..], taken := ordinal);
    OtherKeepsDurations(cfg, t.(fates := WithFate(s.fates, ordinal, Untranslated)), ordinal, context);
    TerminalKeepsDurations(cfg, t.(fates := WithFate(s.fates, ordinal, InWork)), ordinal, Unavailable, KeepPending,
      context);
  }

  lemma {:induction false} ProcessingKeepsDurations(
      cfg: Configuration, s: Session, ordinal: nat, generation: nat, published: bool, context: bool)
    ensures ProcessingPublished(cfg, s, ordinal, generation, published, context).durations == s.durations
    ensures Admitted(cfg, s, ordinal, context).durations == s.durations
  {
    OtherKeepsDurations(cfg, Silence(s, ordinal), ordinal, context);
    TerminalKeepsDurations(cfg, s, ordinal, Unavailable, ClearLatest, context);
    TerminalKeepsDurations(cfg, s, ordinal, Unavailable, KeepPending, context);
  }

  lemma {:induction false} PublishKeepsDurations(cfg: Configuration, before: Session, succeeds: bool, context: bool)
    ensures PublishReturned(cfg, before, succeeds, context).durations == before.durations
  {
    var s := SinkReturns(before, succeeds);
    match s.worker
    case PublishingProcessing(ordinal, generation) =>
      ProcessingKeepsDurations(cfg, s, ordinal, generation, succeeds && s.state == Running, context);
    case PublishingTerminal(ordinal, cleanup) => OtherKeepsDurations(cfg, Clean(s, ordinal, cleanup), ordinal, context);
    case PublishingOther(ordinal, _, _) => OtherKeepsDurations(cfg, s, ordinal, context);
    case _ =>
  }

  lemma {:induction false} OperationKeepsDurations(
      cfg: Configuration, s: Session, outcome: UpdateState, elapsedMs: int, context: bool)
    ensures OperationReturned(cfg, s, outcome, elapsedMs, context).durations ==
      if outcome == Ready && s.worker.Operating? then RememberDuration(s.durations, elapsedMs) else s.durations
  {
    match s.worker
    case Operating(ordinal, _) =>
      TerminalKeepsDurations(cfg, Timed(s, outcome, elapsedMs), ordinal, outcome, ClearActive, context);
    case RunningOther(ordinal, _) => OtherKeepsDurations(cfg, s, ordinal, context);
    case _ =>
  }

  lemma {:induction false} StepKeepsDurations(cfg: Configuration, s: Session, e: Event)
    ensures Step(cfg, s, e).durations ==
      if e.OperationReturns? && e.outcome == Ready && s.worker.Operating?
      then RememberDuration(s.durations, e.elapsedMs) else s.durations
  {
    match e
    case Dequeue(accepts, context) => if s.queue != [] { DequeueKeepsDurations(cfg, s, accepts, context); }
    case AdmissionReturns(context) =>
      if s.worker.AwaitingAdmission? { ProcessingKeepsDurations(cfg, s, s.worker.ordinal, 0, true, context); }
    case PublishReturns(succeeds, context) => PublishKeepsDurations(cfg, s, succeeds, context);
    case OperationReturns(outcome, elapsedMs, context) => OperationKeepsDurations(cfg, s, outcome, elapsedMs, context);
    case CancelledOperationReturns(context) =>
      if s.worker.CancellingOperation? {
        TerminalKeepsDurations(cfg, s, s.worker.ordinal, Unavailable, ClearActive, context);
      }
    case _ => QuietStepKeepsDurations(cfg, s, e);
  }

  lemma {:induction false} QuietStepKeepsDurations(cfg: Configuration, s: Session, e: Event)
    requires !e.Dequeue? && !e.AdmissionReturns? && !e.PublishReturns? && !e.OperationReturns? &&
      !e.CancelledOperationReturns?
    ensures Step(cfg, s, e).durations == s.durations
  {
    if e.OperationBreaksWorker? || e.PublishBreaksWorker? || e.WorkerCancelled? {
      InterruptionKeepsDurations(s, if e.WorkerCancelled? then Silenced else Crashed);
    }
  }

  lemma {:induction false} InterruptionKeepsDurations(s: Session, fate: Fate)
    ensures Interrupted(s, fate).durations == s.durations
  {
  }

  /* ---------- full queues, failing sinks and preempted providers ---------- */

  // A segment leaves the queue for a newer one only when the queue is full: then the oldest goes, and unless it
  // was coalesced away, it is told at once that its first enabled capability is unavailable.
  lemma {:induction false} OnlyAFullQueueDrops(cfg: Configuration, s: Session)
    requires RunSound(cfg, s) && s.state == Running
    ensures var t := Step(cfg, s, Enqueue);
            var bound := if cfg.TranslationOnly() || cfg.maxQueueSize == 0 then 1 else cfg.maxQueueSize;
            if |s.queue| < bound then t.queue == s.queue + [s.received + 1] && t.sent == s.sent
            else
              t.queue == s.queue[1..] + [s.received + 1] &&
              (if cfg.TranslationOnly() || !(cfg.translation || cfg.coaching || cfg.simplification)
               then t.sent == s.sent
               else t.sent == s.sent + [Update(s.queue[0], if cfg.translation then Translation
                 else if cfg.coaching then ReplyCoaching else Simplification, Unavailable)])
  {
  }

  // A segment that is no longer the newest is told so as soon as it is taken, or as soon as its admission comes; the
  // newest waits with the slowest of the remembered durations as its estimate, and then is announced.
  lemma {:induction false} OnlyTheNewestWaits(cfg: Configuration, s: Session, context: bool)
    requires RunSound(cfg, s) && s.state == Running && cfg.translation
    ensures s.worker.Waiting? && s.queue != [] ==>
      var t := Step(cfg, s, Dequeue(true, context));
      if s.queue[0] != s.received then t.sent == s.sent + [Update(s.queue[0], Translation, Unavailable)]
      else
        t.sent == s.sent && t.worker.AwaitingAdmission? && t.worker.ordinal == s.received &&
        (t.worker.estimateMs.None? <==> s.durations == []) &&
        (t.worker.estimateMs.Some? ==>
          t.worker.estimateMs.value in s.durations && forall d :: d in s.durations ==> d <= t.worker.estimateMs.value)
    ensures s.worker.AwaitingAdmission? && PriorityGate.Admits(s.gate, s.now, s.worker.estimateMs) ==>
      Step(cfg, s, AdmissionReturns(context)).sent ==
        s.sent + [Update(s.taken, Translation, if s.latest == Some(s.taken) then Processing else Unavailable)]
  {
  }

  // An error of the sink ends a session: it has failed, and nothing is queued any more.
  lemma {:induction false} SinkErrorsFailTheSession(cfg: Configuration, s: Session, context: bool)
    requires s.worker.PublishingProcessing? || s.worker.PublishingTerminal? || s.worker.PublishingRejected? ||
      s.worker.PublishingOther?
    ensures var t := Step(cfg, s, PublishReturns(false, context)); t.state == Failed && t.queue == []
  {
    var failed := SinkReturns(s, false);
    match s.worker
    case PublishingProcessing(ordinal, _) => OtherStaysFailed(cfg, Silence(failed, ordinal), ordinal, context);
    case PublishingTerminal(ordinal, cleanup) =>
      OtherStaysFailed(cfg, Clean(failed, ordinal, cleanup), ordinal, context);
    case PublishingRejected(_) =>
    case PublishingOther(ordinal, _, _) => OtherStaysFailed(cfg, failed, ordinal, context);
  }

  lemma {:induction false} OtherStaysFailed(cfg: Configuration, s: Session, ordinal: nat, context: bool)
    requires s.state == Failed && s.queue == []
    ensures AfterTranslation(cfg, s, ordinal, context).state == Failed
    ensures AfterTranslation(cfg, s, ordinal, context).queue == []
    ensures AfterCoaching(cfg, s, ordinal).state == Failed && AfterCoaching(cfg, s, ordinal).queue == []
    ensures EndSegment(s).state == Failed && EndSegment(s).queue == []
  {
  }

  // The provider of a worker's segment has been started and, until a request starts, is left alone.
  ghost predicate LeftAlone(s: Session, ordinal: nat, generation: nat) {
    s.taken == ordinal ==>
      !s.worker.AwaitingAdmission? && !s.worker.PublishingProcessing? && !s.worker.CancellingOperation? &&
      (s.worker.Operating? ==> s.worker.generation == generation)
  }

  lemma {:induction false} StepLeavesAlone(cfg: Configuration, s: Session, e: Event, ordinal: nat)
    requires RunSound(cfg, s) && ordinal <= s.taken && LeftAlone(s, ordinal, s.gate.generation)
    ensures ordinal <= Step(cfg, s, e).taken && LeftAlone(Step(cfg, s, e), ordinal, s.gate.generation)
  {
    StepIsFramed(cfg, s, e);
    OperatingOnlyFromProcessing(cfg, s, e);
  }

  lemma {:induction false} OperatingOnlyFromProcessing(cfg: Configuration, s: Session, e: Event)
    ensures var t := Step(cfg, s, e);
            (t.worker.Operating? ==> t.worker == s.worker || s.worker.PublishingProcessing?) &&
            (t.worker.CancellingOperation? ==>
              t.worker == s.worker || (s.worker.Operating? && s.gate.generation != s.worker.generation))
  {
    match e
    case Dequeue(accepts, context) =>
      if s.worker.Waiting? && s.queue != [] { DequeueStartsNothing(cfg, s, accepts, context); }
    case AdmissionReturns(context) =>
      if s.worker.AwaitingAdmission? {
        OtherIsQuiet(cfg, Silence(s, s.worker.ordinal), s.worker.ordinal, context);
        TerminalIsQuiet(cfg, s, s.worker.ordinal, Unavailable, KeepPending, context);
      }
    case PublishReturns(succeeds, context) => PublishStartsOnlyFromProcessing(cfg, s, succeeds, context);
    case OperationReturns(outcome, elapsedMs, context) => OperationStartsNothing(cfg, s, outcome, elapsedMs, context);
    case CancelledOperationReturns(context) =>
      if s.worker.CancellingOperation? { TerminalIsQuiet(cfg, s, s.worker.ordinal, Unavailable, ClearActive, context); }
    case _ => EnvironmentStartsNothing(cfg, s, e);
  }

  lemma {:induction false} DequeueStartsNothing(cfg: Configuration, s: Session, accepts: bool, context: bool)
    requires s.queue != []
    ensures var w := Dequeued(cfg, s, accepts, context).worker; !w.Operating? && !w.CancellingOperation?
  {
    var ordinal := s.queue[0];
    var t := s.(queue := s.queue[1..], taken := ordinal);
    OtherIsQuiet(cfg, t.(fates := WithFate(s.fates, ordinal, Untranslated)), ordinal, context);
    TerminalIsQuiet(cfg, t.(fates := WithFate(s.fates, ordinal, InWork)), ordinal, Unavailable, KeepPending, context);
  }

  lemma {:induction false} PublishStartsOnlyFromProcessing(
      cfg: Configuration, before: Session, succeeds: bool, context: bool)
    ensures var w := PublishReturned(cfg, before, succeeds, context).worker;
            before.worker.PublishingProcessing? || w == before.worker || (!w.Operating? && !w.CancellingOperation?)
    ensures before.worker.PublishingProcessing? ==>
      !PublishReturned(cfg, before, succeeds, context).worker.CancellingOperation?
  {
    var s := SinkReturns(before, succeeds);
    match s.worker
    case PublishingProcessing(ordinal, _) =>
      OtherIsQuiet(cfg, Silence(s, ordinal), ordinal, context);
      TerminalIsQuiet(cfg, s, ordinal, Unavailable, ClearLatest, context);
      TerminalIsQuiet(cfg, s, ordinal, Unavailable, KeepPending, context);
    case PublishingTerminal(ordinal, cleanup) => OtherIsQuiet(cfg, Clean(s, ordinal, cleanup), ordinal, context);
    case PublishingOther(ordinal, _, _) => OtherIsQuiet(cfg, s, ordinal, context);
    case _ =>
  }

  lemma {:induction false} OperationStartsNothing(
      cfg: Configuration, s: Session, outcome: UpdateState, elapsedMs: int, context: bool)
    ensures var w := OperationReturned(cfg, s, outcome, elapsedMs, context).worker;
            w == s.worker || (!w.Operating? && !w.CancellingOperation?)
  {
    match s.worker
    case Operating(ordinal, _) =>
      TerminalIsQuiet(cfg, Timed(s, outcome, elapsedMs), ordinal, outcome, ClearActive, context);
    case RunningOther(ordinal, _) => OtherIsQuiet(cfg, s, ordinal, context);
    case _ =>
  }

  lemma {:induction false} EnvironmentStartsNothing(cfg: Configuration, s: Session, e: Event)
    requires !e.Dequeue? && !e.AdmissionReturns? && !e.PublishReturns? && !e.OperationReturns? &&
      !e.CancelledOperationReturns?
    ensures var w := Step(cfg, s, e).worker;
            w == s.worker || (!w.Operating? && !w.CancellingOperation?) ||
            (w.CancellingOperation? && s.worker.Operating? && s.gate.generation != s.worker.generation)
  {
    InterruptionIsQuiet(s, Crashed);
    InterruptionIsQuiet(s, Silenced);
  }

  // A provider is only ever cancelled for speech-to-text: if its call is being cancelled, a request has started since
  // the call began. And once one has started, the call under way can be cancelled.
  lemma {:induction false} CancelledOnlyForStt(
      cfg: Configuration, gate: PriorityGate.Gate, now: real, trace: seq<Event>, more: seq<Event>)
    requires var s := Run(cfg, Initial(gate, now), trace);
      s.worker.Operating? && s.worker.generation == s.gate.generation
    ensures var s, t := Run(cfg, Initial(gate, now), trace), Run(cfg, Run(cfg, Initial(gate, now), trace), more);
            s.taken <= t.taken && (SttStarts(more) == 0 ==> LeftAlone(t, s.taken, s.gate.generation)) &&
            (t.worker.CancellingOperation? && t.taken == s.taken ==> SttStarts(more) > 0) &&
            (t.worker == s.worker && SttStarts(more) > 0 ==>
              Step(cfg, t, SttPreempts).worker == CancellingOperation(s.worker.ordinal))
    decreases |more|
  {
    EveryRunIsSound(cfg, gate, now, trace);
    var s := Run(cfg, Initial(gate, now), trace);
    GenerationCountsStarts(cfg, s, more);
    if more != [] {
      var front := more[..|more| - 1];
      CancelledOnlyForStt(cfg, gate, now, trace, front);
      RunJoins(cfg, Initial(gate, now), trace, front);
      EveryRunIsSound(cfg, gate, now, trace + front);
      GenerationCountsStarts(cfg, s, front);
      StepIsFramed(cfg, Run(cfg, s, front), more[|more| - 1]);
      if SttStarts(more) == 0 {
        StepLeavesAlone(cfg, Run(cfg, s, front), more[|more| - 1], s.taken);
      }
    }
  }

  lemma {:induction false} RunJoins(cfg: Configuration, s: Session, trace: seq<Event>, more: seq<Event>)
    ensures Run(cfg, s, trace + more) == Run(cfg, Run(cfg, s, trace), more)
    decreases |more|
  {
    if more == [] {
      assert trace + more == trace;
    } else {
      RunJoins(cfg, s, trace, more[..|more| - 1]);
      assert (trace + more)[..|trace + more| - 1] == trace + more[..|more| - 1];
    }
  }

  /* ---------- coaching and simplification ---------- */

  // For the segment taken last, a capability was announced, and told its outcome.
  ghost predicate Announced(s: Session, c: Capability) {
    Update(s.taken, c, Processing) in s.sent
  }

  ghost predicate Concluded(s: Session, c: Capability) {
    Update(s.taken, c, Ready) in s.sent || Update(s.taken, c, Unavailable) in s.sent ||
    Update(s.taken, c, Failure) in s.sent
  }

  predicate Translated(s: Session) {
    0 < s.taken <= |s.fates| && (s.fates[s.taken - 1] == Answered || s.fates[s.taken - 1] == Untranslated)
  }

  // While the session runs, the worker goes on only from what it has announced, and rests only when the segment
  // it took last is through.
  ghost predicate WorksThrough(cfg: Configuration, s: Session) {
    s.state == Running ==>
      match s.worker
      case PublishingOther(_, c, terminal) => Announced(s, c) && (terminal ==> Concluded(s, c))
      case RunningOther(_, c) => Announced(s, c)
      case PublishingRejected(_) => 0 < s.taken <= |s.fates| && s.fates[s.taken - 1] == Rejected
      case Waiting =>
        cfg.simplification && Translated(s) ==> Announced(s, Simplification) && Concluded(s, Simplification)
      case _ => true
  }

  lemma {:induction false} OtherWorksThrough(cfg: Configuration, s: Session, context: bool)
    ensures WorksThrough(cfg, AfterTranslation(cfg, s, s.taken, context))
    ensures WorksThrough(cfg, AfterCoaching(cfg, s, s.taken))
  {
  }

  lemma {:induction false} TerminalWorksThrough(
      cfg: Configuration, s: Session, state: UpdateState, cleanup: Cleanup, context: bool)
    ensures WorksThrough(cfg, Terminal(cfg, s, s.taken, state, cleanup, context))
  {
    OtherWorksThrough(cfg, Clean(Silence(s, s.taken), s.taken, cleanup), context);
  }

  lemma {:induction false} DequeueWorksThrough(cfg: Configuration, s: Session, accepts: bool, context: bool)
    requires s.queue != [] && 0 < s.queue[0] <= |s.fates|
    ensures WorksThrough(cfg, Dequeued(cfg, s, accepts, context))
  {
    var ordinal := s.queue[0];
    var t := s.(queue := s.queue[1..], taken := ordinal);
    OtherWorksThrough(cfg, t.(fates := WithFate(s.fates, ordinal, Untranslated)), context);
    TerminalWorksThrough(cfg, t.(fates := WithFate(s.fates, ordinal, InWork)), Unavailable, KeepPending, context);
  }

  lemma {:induction false} ProcessingWorksThrough(
      cfg: Configuration, s: Session, generation: nat, published: bool, context: bool)
    ensures WorksThrough(cfg, ProcessingPublished(cfg, s, s.taken, generation, published, context))
    ensures WorksThrough(cfg, Admitted(cfg, s, s.taken, context))
  {
    OtherWorksThrough(cfg, Silence(s, s.taken), context);
    TerminalWorksThrough(cfg, s, Unavailable, ClearLatest, context);
    TerminalWorksThrough(cfg, s, Unavailable, KeepPending, context);
  }

  lemma {:induction false} PublishWorksThrough(cfg: Configuration, before: Session, succeeds: bool, context: bool)
    requires WorksThrough(cfg, before) && WorkerSound(before) && NoTranslation(before)
    ensures WorksThrough(cfg, PublishReturned(cfg, before, succeeds, context))
  {
    var s := SinkReturns(before, succeeds);
    match s.worker
    case PublishingProcessing(_, generation) =>
      ProcessingWorksThrough(cfg, s, generation, succeeds && s.state == Running, context);
    case PublishingTerminal(_, cleanup) => OtherWorksThrough(cfg, Clean(s, s.taken, cleanup), context);
    case PublishingOther(_, _, _) => OtherPublishWorksThrough(cfg, before, succeeds, context);
    case _ =>
  }

  lemma {:induction false} OtherPublishWorksThrough(cfg: Configuration, before: Session, succeeds: bool, context: bool)
    requires WorksThrough(cfg, before) && WorkerSound(before) && NoTranslation(before) && before.worker.PublishingOther?
    ensures WorksThrough(cfg, PublishReturned(cfg, before, succeeds, context))
  {
    OtherWorksThrough(cfg, SinkReturns(before, succeeds), context);
  }

  lemma {:induction false} OperationWorksThrough(
      cfg: Configuration, s: Session, outcome: UpdateState, elapsedMs: int, context: bool)
    requires WorksThrough(cfg, s) && WorkerSound(s) && NoTranslation(s) && outcome != Processing
    ensures WorksThrough(cfg, OperationReturned(cfg, s, outcome, elapsedMs, context))
  {
    match s.worker
    case Operating(_, _) => TerminalWorksThrough(cfg, Timed(s, outcome, elapsedMs), outcome, ClearActive, context);
    case RunningOther(_, c) =>
      OtherWorksThrough(cfg, s, context);
      assert WorksThrough(cfg, s);
    case _ =>
  }

  // What does not move the worker does not undo its announcements.
  lemma {:induction false} OthersWaitThrough(cfg: Configuration, s: Session, t: Session)
    requires WorksThrough(cfg, s) && (t.state == Running ==> s.state == Running)
    requires t.worker == s.worker && t.taken == s.taken && s.sent <= t.sent
    requires t.state == Running && 0 < s.taken <= |s.fates| ==>
      s.taken <= |t.fates| && t.fates[s.taken - 1] == s.fates[s.taken - 1]
    requires t.state == Running && s.taken > |s.fates| ==> s.taken > |t.fates|
    ensures WorksThrough(cfg, t)
  {
    assert forall u :: u in s.sent ==> u in t.sent;
  }

  lemma {:induction false} EnqueueWorksThrough(cfg: Configuration, s: Session)
    requires WorksThrough(cfg, s) && RunSound(cfg, s) && s.state == Running
    ensures WorksThrough(cfg, Enqueued(cfg, s))
  {
    OthersWaitThrough(cfg, s, Enqueued(cfg, s));
  }

  lemma {:induction false} EnvironmentWorksThrough(cfg: Configuration, s: Session, e: Event)
    requires WorksThrough(cfg, s) && RunSound(cfg, s)
    requires e.DropPublishReturns? || e.Stop? || e.StopCompletes? || e.Start? || e.DropPublishBreaks? ||
      e.SttStart? || e.SttFinish? || e.Report? || e.Tick?
    ensures WorksThrough(cfg, Step(cfg, s, e))
  {
    if e.DropPublishReturns? && e.ordinal in s.droppers {
      DropWorksThrough(cfg, s, e.ordinal, e.succeeds);
    } else if e.Start? && Started(s) != s {
      assert Started(s).worker == Waiting;
    } else {
      OthersWaitThrough(cfg, s, Step(cfg, s, e));
    }
  }

  lemma {:induction false} DropWorksThrough(cfg: Configuration, s: Session, ordinal: nat, succeeds: bool)
    requires WorksThrough(cfg, s) && ordinal in s.droppers
    ensures WorksThrough(cfg, DropContinues(SinkReturns(s, succeeds), ordinal))
  {
    if succeeds {
      OthersWaitThrough(cfg, s, DropContinues(s, ordinal));
    }
  }

  lemma {:induction false} StepWorksThrough(cfg: Configuration, s: Session, e: Event)
    requires WorksThrough(cfg, s) && RunSound(cfg, s)
    ensures WorksThrough(cfg, Step(cfg, s, e))
  {
    match e
    case Enqueue => if s.state == Running { EnqueueWorksThrough(cfg, s); }
    case Dequeue(accepts, context) =>
      if s.worker.Waiting? && s.queue != [] { DequeueWorksThrough(cfg, s, accepts, context); }
    case AdmissionReturns(context) =>
      if s.worker.AwaitingAdmission? { ProcessingWorksThrough(cfg, s, 0, true, context); }
    case PublishReturns(succeeds, context) => PublishWorksThrough(cfg, s, succeeds, context);
    case OperationReturns(outcome, elapsedMs, context) =>
      if outcome != Processing { OperationWorksThrough(cfg, s, outcome, elapsedMs, context); }
    case CancelledOperationReturns(context) =>
      if s.worker.CancellingOperation? { TerminalWorksThrough(cfg, s, Unavailable, ClearActive, context); }
    case OperationBreaksWorker => InterruptionIsQuiet(s, Crashed);
    case PublishBreaksWorker => InterruptionIsQuiet(s, Crashed);
    case WorkerCancelled => InterruptionIsQuiet(s, Silenced);
    case SttPreempts =>
    case _ => EnvironmentWorksThrough(cfg, s, e);
  }

  // In a running session the worker rests only when the segment it took last is through: with simplification
  // enabled, and unless the context refused it, that segment's simplification was announced and concluded.
  lemma {:induction false} SegmentsAreWorkedThrough(
      cfg: Configuration, gate: PriorityGate.Gate, now: real, trace: seq<Event>)
    ensures var s := Run(cfg, Initial(gate, now), trace);
            WorksThrough(cfg, s) &&
            (s.state == Running && s.worker.Waiting? && s.taken > 0 && cfg.simplification ==>
              s.taken <= |s.fates| &&
              (s.fates[s.taken - 1] == Answered || s.fates[s.taken - 1] == Untranslated ==>
                Update(s.taken, Simplification, Processing) in s.sent && Concluded(s, Simplification)))
    decreases |trace|
  {
    EveryRunIsSound(cfg, gate, now, trace);
    if trace != [] {
      SegmentsAreWorkedThrough(cfg, gate, now, trace[..|trace| - 1]);
      EveryRunIsSound(cfg, gate, now, trace[..|trace| - 1]);
      StepWorksThrough(cfg, Run(cfg, Initial(gate, now), trace[..|trace| - 1]), trace[|trace| - 1]);
    }
  }

  // Once a translation is told in a running session, coaching is announced next if it is enabled and there is a
  // reply context, else simplification if that is enabled, and else nothing: the worker rests.
  lemma {:induction false} CoachingComesNext(cfg: Configuration, s: Session, context: bool)
    requires RunSound(cfg, s) && s.state == Running && s.worker.PublishingTerminal?
    ensures var t := Step(cfg, s, PublishReturns(true, context));
            (cfg.coaching && context ==> t.sent == s.sent + [Update(s.taken, ReplyCoaching, Processing)]) &&
            (cfg.simplification && !(cfg.coaching && context) ==>
              t.sent == s.sent + [Update(s.taken, Simplification, Processing)]) &&
            (!cfg.simplification && !(cfg.coaching && context) ==> t.sent == s.sent && t.worker.Waiting?)
  {
    assert WorkerSound(s);
  }

  /* ---------- when a provider may start ---------- */

  // A provider call starts only as the processing update of the newest segment was published, in RUNNING,
  // with no active STT and the STT generation of the admission.
  lemma {:induction false} ProviderStartsOnlyForTheNewest(cfg: Configuration, s: Session, e: Event)
    requires RunSound(cfg, s) && Step(cfg, s, e).calls != s.calls
    ensures s.worker.PublishingProcessing? && e.PublishReturns? && e.succeeds
    ensures Step(cfg, s, e).calls == s.calls + [s.received] && s.worker.ordinal == s.received
    ensures s.state == Running && s.queue == [] && s.latest == Some(s.received)
    ensures s.gate.active == 0 && s.gate.generation == s.worker.generation
  {
    StepIsFramed(cfg, s, e);
  }

  function SttStarts(trace: seq<Event>): nat {
    if trace == [] then 0 else SttStarts(trace[..|trace| - 1]) + if trace[|trace| - 1].SttStart? then 1 else 0
  }

  lemma {:induction false} GenerationCountsStarts(cfg: Configuration, s: Session, trace: seq<Event>)
    ensures Run(cfg, s, trace).gate.generation == s.gate.generation + SttStarts(trace)
    decreases |trace|
  {
    if trace != [] {
      GenerationCountsStarts(cfg, s, trace[..|trace| - 1]);
      StepIsFramed(cfg, Run(cfg, s, trace[..|trace| - 1]), trace[|trace| - 1]);
    }
  }

  lemma {:induction false} AdmittedBefore(cfg: Configuration, s: Session, trace: seq<Event>) returns (at: nat)
    requires !s.worker.PublishingProcessing? && Run(cfg, s, trace).worker.PublishingProcessing?
    ensures at < |trace|
    ensures var before := Run(cfg, s, trace[..at]);
            before.worker.AwaitingAdmission? &&
              PriorityGate.Admits(before.gate, before.now, before.worker.estimateMs) &&
            Run(cfg, s, trace).worker == PublishingProcessing(before.worker.ordinal, before.gate.generation)
    decreases |trace|
  {
    var front := trace[..|trace| - 1];
    if Run(cfg, s, front).worker == Run(cfg, s, trace).worker {
      at := AdmittedBefore(cfg, s, front);
      assert front[..at] == trace[..at];
    } else {
      at := |trace| - 1;
      StepIsFramed(cfg, Run(cfg, s, front), trace[|trace| - 1]);
    }
  }

  // So between the admission and the provider's start no STT request started, and none is active.
  lemma {:induction false} ProviderStartsInTheAdmittedPause(
      cfg: Configuration, gate: PriorityGate.Gate, now: real, trace: seq<Event>, e: Event) returns (at: nat)
    ensures var s := Run(cfg, Initial(gate, now), trace);
            Step(cfg, s, e).calls != s.calls ==>
              at < |trace| &&
              var before := Run(cfg, Initial(gate, now), trace[..at]);
              before.worker.AwaitingAdmission? && before.worker.ordinal == s.received &&
              PriorityGate.Admits(before.gate, before.now, before.worker.estimateMs) &&
              SttStarts(trace) == SttStarts(trace[..at]) && s.gate.active == 0
  {
    var s := Run(cfg, Initial(gate, now), trace);
    at := 0;
    if Step(cfg, s, e).calls != s.calls {
      EveryRunIsSound(cfg, gate, now, trace);
      ProviderStartsOnlyForTheNewest(cfg, s, e);
      at := AdmittedBefore(cfg, Initial(gate, now), trace);
      GenerationCountsStarts(cfg, Initial(gate, now), trace);
      GenerationCountsStarts(cfg, Initial(gate, now), trace[..at]);
    }
  }

  predicate BeforeStart(w: Worker) {
    w.AwaitingAdmission? || w.PublishingProcessing?
  }

  // Calls are for ever newer segments, and never for one still waiting to start.
  ghost predicate CallsAscend(s: Session) {
    (forall i :: 0 <= i < |s.calls| ==> s.calls[i] <= s.taken && (BeforeStart(s.worker) ==> s.calls[i] < s.taken)) &&
    (forall i, j :: 0 <= i < j < |s.calls| ==> s.calls[i] < s.calls[j])
  }

  lemma {:induction false} StepKeepsCallsAscending(cfg: Configuration, s: Session, e: Event, t: Session)
    requires Framed(cfg, s, e, t) && QueueSound(cfg, s) && WorkerSound(s) && WorkerSound(t) && CallsAscend(s)
    ensures CallsAscend(t)
  {
  }

  // So no segment's translation provider is started twice.
  lemma {:induction false} ProviderStartsAreAscending(
      cfg: Configuration, gate: PriorityGate.Gate, now: real, trace: seq<Event>)
    ensures CallsAscend(Run(cfg, Initial(gate, now), trace))
    decreases |trace|
  {
    if trace != [] {
      var s, e := Run(cfg, Initial(gate, now), trace[..|trace| - 1]), trace[|trace| - 1];
      ProviderStartsAreAscending(cfg, gate, now, trace[..|trace| - 1]);
      EveryRunIsSound(cfg, gate, now, trace[..|trace| - 1]);
      StepIsFramed(cfg, s, e);
      StepKeepsQueue(cfg, s, e);
      StepKeepsCallsAscending(cfg, s, e, Step(cfg, s, e));
    }
  }

  /* ---------- a broken worker ---------- */

  // A worker that has ended never takes a segment again and starts no provider.
  lemma {:induction false} BrokenWorkerTakesNothing(cfg: Configuration, s: Session, trace: seq<Event>)
    requires s.worker.Ended? && Begun(s)
    ensures var t := Run(cfg, s, trace); t.worker.Ended? && Begun(t) && t.taken == s.taken && t.calls == s.calls
    decreases |trace|
  {
    if trace != [] {
      BrokenWorkerTakesNothing(cfg, s, trace[..|trace| - 1]);
      StepIsFramed(cfg, Run(cfg, s, trace[..|trace| - 1]), trace[|trace| - 1]);
    }
  }

  // Somewhere in the run an exception passed the worker's handlers.
  ghost predicate BrokenIn(cfg: Configuration, s: Session, trace: seq<Event>) {
    trace != [] &&
    (BrokenIn(cfg, s, trace[..|trace| - 1]) || Breaks(Run(cfg, s, trace[..|trace| - 1]), trace[|trace| - 1]))
  }

  // Exactly when: a reachable session is RUNNING without a live worker if and only if it is RUNNING and, at some
  // step before, its provider or its sink raised past the worker.
  lemma {:induction false} RunningWithoutWorkerIff(
      cfg: Configuration, gate: PriorityGate.Gate, now: real, trace: seq<Event>)
    ensures var t := Run(cfg, Initial(gate, now), trace);
            (BrokenIn(cfg, Initial(gate, now), trace) ==> t.worker.Ended?) &&
            (t.state == Running ==> (t.worker.Ended? <==> BrokenIn(cfg, Initial(gate, now), trace)))
    decreases |trace|
  {
    if trace != [] {
      var s, e := Run(cfg, Initial(gate, now), trace[..|trace| - 1]), trace[|trace| - 1];
      RunningWithoutWorkerIff(cfg, gate, now, trace[..|trace| - 1]);
      EveryRunIsSound(cfg, gate, now, trace[..|trace| - 1]);
      StepIsFramed(cfg, s, e);
    }
  }

  lemma {:induction false} After(cfg: Configuration, from: Session, trace: seq<Event>, s: Session, e: Event)
    returns (longer: seq<Event>, t: Session)
    requires Run(cfg, from, trace) == s
    ensures longer == trace + [e] && t == Step(cfg, s, e) && Run(cfg, from, longer) == t
  {
    longer, t := trace + [e], Step(cfg, s, e);
    assert longer[..|longer| - 1] == trace;
  }

  const TRANSLATION_ONLY := Configuration(true, false, false, 8)

  lemma {:induction false} OneSegmentTaken() returns (trace: seq<Event>, s: Session)
    ensures s == Run(TRANSLATION_ONLY, Initial(PriorityGate.IDLE, 0.0), trace)
    ensures s.state == Running && s.latest == Some(1) && s.fates == [InWork] && s.gate == PriorityGate.IDLE
    ensures s.worker == AwaitingAdmission(1, None)
  {
    trace, s := OneSegmentQueued();
    trace, s := After(TRANSLATION_ONLY, Initial(PriorityGate.IDLE, 0.0), trace, s, Dequeue(true, false));
  }

  lemma {:induction false} OneSegmentQueued() returns (trace: seq<Event>, s: Session)
    ensures s == Run(TRANSLATION_ONLY, Initial(PriorityGate.IDLE, 0.0), trace)
    ensures s.state == Running && s.latest == Some(1) && s.fates == [Queued] && s.gate == PriorityGate.IDLE
    ensures s.worker.Waiting? && s.queue == [1] && s.durations == []
  {
    var from := Initial(PriorityGate.IDLE, 0.0);
    assert Run(TRANSLATION_ONLY, from, []) == from;
    trace, s := After(TRANSLATION_ONLY, from, [], from, Start);
    assert s == from.(state := Running, worker := Waiting);
    trace, s := After(TRANSLATION_ONLY, from, trace, s, Enqueue);
  }

  lemma {:induction false} OneProviderCalled() returns (trace: seq<Event>, s: Session)
    ensures s == Run(TRANSLATION_ONLY, Initial(PriorityGate.IDLE, 0.0), trace)
    ensures s.state == Running && s.fates == [InWork] && s.worker == Operating(1, 0)
  {
    var from := Initial(PriorityGate.IDLE, 0.0);
    trace, s := OneSegmentTaken();
    trace, s := After(TRANSLATION_ONLY, from, trace, s, AdmissionReturns(false));
    assert s.worker == PublishingProcessing(1, 0) && s.latest == Some(1) && s.fates == [InWork];
    trace, s := After(TRANSLATION_ONLY, from, trace, s, PublishReturns(true, false));
  }

  // It happens: a translation whose provider raises a cancellation leaves the session RUNNING without a worker,
  // and the segment that was in work is never told.
  lemma {:induction false} ProviderCanBreakARunningSession() returns (trace: seq<Event>)
    ensures var t := Run(TRANSLATION_ONLY, Initial(PriorityGate.IDLE, 0.0), trace);
            t.state == Running && t.worker.Ended? && t.fates == [Crashed] && Terminals(t.sent, 1) == 0
  {
    var s;
    trace, s := OneProviderCalled();
    trace, s := After(TRANSLATION_ONLY, Initial(PriorityGate.IDLE, 0.0), trace, s, OperationBreaksWorker);
    EveryRunIsSound(TRANSLATION_ONLY, PriorityGate.IDLE, 0.0, trace);
    assert Accounted(s.sent, s.fates, 1);
  }

  /* ---------- the orchestrator as an object ---------- */

  // What enqueue raises or returns, or that it still publishes for a dropped segment.
  datatype EnqueueAnswer = Refused | Returned(accepted: bool) | Pending(dropped: nat)

  // Each method runs from one await to the next, or to the sink call it makes; now is the gate's clock.
  class AssistModeOrchestrator {
    const configuration: Configuration
    const priorityGate: PriorityGate.LiveTranscriptionPriorityGate
    var state: Lifecycle
    var terminated: bool
    var receivedSegmentCount: nat
    var latestTranslationOrdinal: Option<nat>
    var activeTranslationOrdinal: Option<nat>
    var queue: seq<nat>
    var worker: Worker
    var droppers: map<nat, seq<Capability>>
    var completedTranslationDurationsMs: seq<int>

    ghost var taken: nat            // the ordinal the worker took last
    ghost var sent: seq<Update>     // every update handed to the sink
    ghost var calls: seq<nat>       // the ordinals whose translation provider was started
    ghost var fates: seq<Fate>

    ghost function View(now: real): Session
      reads this, priorityGate
    {
      Session(state, terminated, receivedSegmentCount, latestTranslationOrdinal, activeTranslationOrdinal, queue,
        worker,
              droppers, completedTranslationDurationsMs, priorityGate.View(), now, taken, sent, calls, fates)
    }

    constructor (configuration: Configuration, gate: PriorityGate.LiveTranscriptionPriorityGate)
      ensures this.configuration == configuration && priorityGate == gate
      ensures forall now :: View(now) == Initial(gate.View(), now)
    {
      this.configuration, priorityGate := configuration, gate;
      state, terminated, receivedSegmentCount := Stopped, false, 0;
      latestTranslationOrdinal, activeTranslationOrdinal, queue, worker := None, None, [], NotStarted;
      droppers, completedTranslationDurationsMs := map[], [];
      taken, sent, calls, fates := 0, [], [], [];
    }

    method Start(ghost now: real)
      modifies this
      ensures View(now) == Started(old(View(now)))
    {
      if state == Running || terminated || state == Failed {
        return;
      }
      state := Running;
      worker := Waiting;
    }

    // Refused stands for the error of a session that is not running. When an older segment was pushed out the
    // answer is given only after its updates, by DropPublishAnswered.
    method Enqueue(ghost now: real) returns (answer: EnqueueAnswer)
      modifies this
      ensures answer.Refused? <==> old(state) != Running
      ensures View(now) == if answer.Refused? then old(View(now)) else Enqueued(configuration, old(View(now)))
      ensures answer.Pending? ==> old(queue) != [] && answer.dropped == old(queue)[0] && answer.dropped in droppers
    {
      if state != Running {
        return Refused;
      }
      answer := Returned(true);
      receivedSegmentCount := receivedSegmentCount + 1;
      var ordinal := receivedSegmentCount;
      if configuration.translation {
        latestTranslationOrdinal := Some(ordinal);
      }
      if configuration.TranslationOnly() {
        if queue != [] {
          fates := WithFate(fates, queue[0], Replaced);
          queue := queue[1..];
        }
        queue, fates := queue + [ordinal], fates + [Queued];
      } else if |queue| < configuration.maxQueueSize || queue == [] {
        queue, fates := queue + [ordinal], fates + [Queued];
      } else {
        var dropped := queue[0];
        queue, fates := queue[1..] + [ordinal], fates + [Queued];
        DropSegment(dropped, now);
        answer := if Enabled(configuration) == [] then Returned(true) else Pending(dropped);
      }
    }

    method DropSegment(ordinal: nat, ghost now: real)
      modifies this`sent, this`fates, this`droppers
      ensures View(now) == PublishDropped(configuration, old(View(now)), ordinal)
    {
      var capabilities := Enabled(configuration);
      fates := WithFate(fates, ordinal, if configuration.translation then Dropped else Untranslated);
      if capabilities != [] {
        sent := sent + [Update(ordinal, capabilities[0], Unavailable)];
        droppers := droppers[ordinal := capabilities[1..]];
      }
    }

    method Stop(ghost now: real)
      modifies this
      ensures View(now) == StopRequested(old(View(now)))
    {
      if terminated {
        return;
      }
      terminated := true;
      if state == Running {
        state := Stopping;
      }
      queue, fates := [], Discard(fates);
    }

    // What the sink's answer does to the session.
    method SinkReturned(succeeds: bool, ghost now: real)
      modifies this`state, this`queue, this`fates
      ensures View(now) == SinkReturns(old(View(now)), succeeds)
    {
      if !succeeds {
        state := Failed;
        queue, fates := [], Discard(fates);
      }
    }

    // The rest of a segment after its translation.
    method FinishSegment(ordinal: nat, coaching: bool, ghost now: real)
      modifies this`worker, this`sent
      ensures View(now) ==
        if coaching then StartOther(old(View(now)), ordinal, ReplyCoaching)
        else AfterCoaching(configuration, old(View(now)), ordinal)
    {
      if coaching {
        sent := sent + [Update(ordinal, ReplyCoaching, Processing)];
        worker := PublishingOther(ordinal, ReplyCoaching, false);
      } else if configuration.simplification && state == Running {
        sent := sent + [Update(ordinal, Simplification, Processing)];
        worker := PublishingOther(ordinal, Simplification, false);
      } else {
        worker := if state == Running then Waiting else Ended;
      }
    }

    method ContinueSegment(ordinal: nat, hasReplyContext: bool, ghost now: real)
      modifies this`worker, this`sent
      ensures View(now) == AfterTranslation(configuration, old(View(now)), ordinal, hasReplyContext)
    {
      FinishSegment(ordinal, configuration.coaching && hasReplyContext && state == Running, now);
    }

    method CleanUp(ordinal: nat, cleanup: Cleanup, ghost now: real)
      modifies this`activeTranslationOrdinal, this`latestTranslationOrdinal
      ensures View(now) == Clean(old(View(now)), ordinal, cleanup)
    {
      if cleanup == ClearActive {
        activeTranslationOrdinal := None;
      }
      if cleanup != KeepPending && latestTranslationOrdinal == Some(ordinal) {
        latestTranslationOrdinal := None;
      }
    }

    method PublishTerminal(ordinal: nat, update: UpdateState, cleanup: Cleanup, hasReplyContext: bool, ghost now: real)
      modifies this
      ensures View(now) == Terminal(configuration, old(View(now)), ordinal, update, cleanup, hasReplyContext)
    {
      if state == Running {
        sent := sent + [Update(ordinal, Translation, update)];
        fates := WithFate(fates, ordinal, Answered);
        worker := PublishingTerminal(ordinal, cleanup);
        return;
      }
      fates := WithFate(fates, ordinal, Silenced);
      CleanUp(ordinal, cleanup, now);
      ContinueSegment(ordinal, hasReplyContext, now);
    }

    // The worker's queue.get returns the oldest segment.
    method TakeSegment(contextAccepts: bool, hasReplyContext: bool, ghost now: real)
      requires worker.Waiting? && queue != []
      modifies this
      ensures View(now) == Dequeued(configuration, old(View(now)), contextAccepts, hasReplyContext)
    {
      var ordinal := queue[0];
      queue := queue[1..];
      taken := ordinal;
      fates := WithFate(fates, ordinal,
        if !contextAccepts then Rejected else if configuration.translation then InWork else Untranslated);
      if !contextAccepts {
        if state == Running {
          sent := sent + [Update(ordinal, ReplyCoaching, Failure)];
          worker := PublishingRejected(ordinal);
        } else {
          worker := Ended;
        }
        return;
      }
      if !configuration.translation {
        ContinueSegment(ordinal, hasReplyContext, now);
      } else if latestTranslationOrdinal != Some(ordinal) {
        PublishTerminal(ordinal, Unavailable, KeepPending, hasReplyContext, now);
      } else {
        worker := AwaitingAdmission(ordinal, EstimatedDuration(completedTranslationDurationsMs));
      }
    }

    // wait_for_translation_admission returns.
    method AdmissionReturned(hasReplyContext: bool, ghost now: real)
      requires worker.AwaitingAdmission?
      modifies this
      ensures View(now) == Admitted(configuration, old(View(now)), old(worker).ordinal, hasReplyContext)
    {
      var ordinal := worker.ordinal;
      if state != Running {
        fates := WithFate(fates, ordinal, Silenced);
        ContinueSegment(ordinal, hasReplyContext, now);
      } else if latestTranslationOrdinal != Some(ordinal) {
        PublishTerminal(ordinal, Unavailable, KeepPending, hasReplyContext, now);
      } else {
        sent := sent + [Update(ordinal, Translation, Processing)];
        worker := PublishingProcessing(ordinal, priorityGate.sttStartGeneration);
      }
    }

    method ProcessingReturned(ordinal: nat, generation: nat, published: bool, hasReplyContext: bool, ghost now: real)
      modifies this
      ensures View(now) ==
        ProcessingPublished(configuration, old(View(now)), ordinal, generation, published, hasReplyContext)
    {
      if !published {
        fates := WithFate(fates, ordinal, Silenced);
        ContinueSegment(ordinal, hasReplyContext, now);
      } else if priorityGate.activeSttCount > 0 || priorityGate.sttStartGeneration != generation {
        PublishTerminal(ordinal, Unavailable, ClearLatest, hasReplyContext, now);
      } else if latestTranslationOrdinal != Some(ordinal) {
        PublishTerminal(ordinal, Unavailable, KeepPending, hasReplyContext, now);
      } else {
        activeTranslationOrdinal := Some(ordinal);
        worker := Operating(ordinal, generation);
        calls := calls + [ordinal];
      }
    }

    // The sink answers the worker's publish.
    method PublishAnswered(succeeds: bool, hasReplyContext: bool, ghost now: real)
      requires worker.PublishingProcessing? || worker.PublishingTerminal? || worker.PublishingRejected? ||
               worker.PublishingOther?
      modifies this
      ensures View(now) == PublishReturned(configuration, old(View(now)), succeeds, hasReplyContext)
      ensures !succeeds ==> state == Failed && queue == []
    {
      SinkReturned(succeeds, now);
      var published := succeeds && state == Running;
      match worker
      case PublishingProcessing(ordinal, generation) =>
        ProcessingReturned(ordinal, generation, published, hasReplyContext, now);
      case PublishingTerminal(ordinal, cleanup) =>
        CleanUp(ordinal, cleanup, now);
        ContinueSegment(ordinal, hasReplyContext, now);
      case PublishingRejected(_) =>
        worker := if state == Running then Waiting else Ended;
      case PublishingOther(ordinal, capability, terminal) =>
        if published && !terminal {
          worker := RunningOther(ordinal, capability);
        } else if capability == ReplyCoaching {
          FinishSegment(ordinal, false, now);
        } else {
          worker := if state == Running then Waiting else Ended;
        }
    }

    // The sink answers the publish of a dropped segment; its next capability follows, or enqueue's answer:
    // true exactly when the session still runs and every update went out.
    method DropPublishAnswered(ordinal: nat, succeeds: bool, ghost now: real) returns (answer: EnqueueAnswer)
      requires ordinal in droppers
      modifies this
      ensures View(now) == DropContinues(SinkReturns(old(View(now)), succeeds), ordinal)
      ensures !succeeds ==> state == Failed && queue == []
      ensures succeeds && state == Running && old(droppers)[ordinal] != [] ==>
        sent == old(sent) + [Update(ordinal, old(droppers)[ordinal][0], Unavailable)]
      ensures answer == (
        if !succeeds || state != Running then Returned(false)
        else if old(droppers)[ordinal] == [] then Returned(true) else Pending(ordinal))
    {
      SinkReturned(succeeds, now);
      answer := if !succeeds || state != Running then Returned(false)
                else if droppers[ordinal] == [] then Returned(true) else Pending(ordinal);
      var rest := droppers[ordinal];
      if state == Running && rest != [] {
        sent := sent + [Update(ordinal, rest[0], Unavailable)];
        droppers := droppers[ordinal := rest[1..]];
      } else {
        droppers := map o | o in droppers && o != ordinal :: droppers[o];
      }
    }

    // A provider operation returns an update, or raises an error that is reported as a failure.
    method OperationAnswered(update: UpdateState, elapsedMs: int, hasReplyContext: bool, ghost now: real)
      requires worker.Operating? || worker.RunningOther?
      modifies this
      ensures View(now) == OperationReturned(configuration, old(View(now)), update, elapsedMs, hasReplyContext)
      ensures old(state) == Running ==>
        sent == old(sent) +
          [Update(old(worker).ordinal, if old(worker).Operating? then Translation else old(worker).capability, update)]
    {
      var ordinal := worker.ordinal;
      if worker.Operating? {
        if update == Ready {
          completedTranslationDurationsMs := RememberDuration(completedTranslationDurationsMs, elapsedMs);
        }
        PublishTerminal(ordinal, update, ClearActive, hasReplyContext, now);
        return;
      }
      var capability := worker.capability;
      if state == Running {
        sent := sent + [Update(ordinal, capability, update)];
        worker := PublishingOther(ordinal, capability, true);
      } else if capability == ReplyCoaching {
        FinishSegment(ordinal, false, now);
      } else {
        worker := Ended;
      }
    }

    // An exception passes the worker's handlers: its cleanup runs and its coroutine ends.
    method WorkerInterrupted(ghost fate: Fate, ghost now: real)
      modifies this
      ensures View(now) == Interrupted(old(View(now)), fate)
    {
      if PreTerminal(worker) {
        fates := WithFate(fates, worker.ordinal, fate);
      }
      if Translating(worker) {
        CleanUp(worker.ordinal, ClearActive, now);
      }
      worker := Ended;
    }
  }
}
