/**
 * One live-transcription connection: the message loop, its buffered session, and the chunk buffer.
 *
 * A message carries what the client sent and how the collaborators will answer it, so a list of messages
 * is one complete run of the connection.
 */
module LiveSession {
  import opened Wrappers

  const MAX_SEQUENCE_VIOLATIONS := 3

  datatype Chunk = Chunk(meetingId: nat, sequence: nat, source: nat)

  // How the processing use case answers one chunk: the accepted texts, or an error.
  datatype Answer = Accepted(texts: seq<string>) | Invalid | ProviderFails | Breaks

  datatype ChunkResult = ChunkResult(sequence: nat, texts: seq<string>, gap: bool)

  datatype ProcessingError = ValidationError | ProviderError | RuntimeError

  // What one processor call was asked: which chunk, and the text accepted before it.
  datatype Ask = Ask(sequence: nat, previousAcceptedText: Option<string>)

  /* ---------- the bounded buffer ---------- */

  class BoundedAudioChunkBuffer {
    const maxSize: nat
    var chunks: seq<Chunk>
    var isClosed: bool

    ghost predicate Valid()
      reads this
    {
      0 < maxSize && |chunks| <= maxSize
    }

    constructor (maxSize: nat)
      requires maxSize > 0
      ensures Valid() && this.maxSize == maxSize && chunks == [] && !isClosed
    {
      this.maxSize := maxSize;
      chunks, isClosed := [], false;
    }

    // Never more than the capacity: a full buffer gives up its oldest chunk.
    method Put(chunk: Chunk) returns (r: Result<Option<Chunk>, ProcessingError>)
      requires Valid()
      modifies this`chunks
      ensures Valid()
      ensures r.Err? <==> isClosed
      ensures r.Err? ==> chunks == old(chunks)
      ensures r.Ok? && |old(chunks)| < maxSize ==> r.value.None? && chunks == old(chunks) + [chunk]
      ensures r.Ok? && |old(chunks)| == maxSize ==>
        r.value == Some(old(chunks)[0]) && chunks == old(chunks)[1..] + [chunk]
    {
      if isClosed {
        return Err(RuntimeError);
      }
      var dropped := None;
      if |chunks| == maxSize {
        dropped := Some(chunks[0]);
        chunks := chunks[1..];
      }
      chunks := chunks + [chunk];
      return Ok(dropped);
    }

    // Oldest first; an empty open buffer would wait for a chunk.
    method Get() returns (r: Result<Chunk, ProcessingError>)
      requires Valid() && (chunks != [] || isClosed)
      modifies this`chunks
      ensures Valid()
      ensures r.Ok? <==> old(chunks) != []
      ensures r.Ok? ==> [r.value] + chunks == old(chunks)
      ensures r.Err? ==> chunks == old(chunks)
    {
      if chunks == [] {
        return Err(RuntimeError);
      }
      r := Ok(chunks[0]);
      chunks := chunks[1..];
    }

    method Close()
      modifies this`isClosed
      ensures isClosed
    {
      isClosed := true;
    }
  }

  /* ---------- the buffered session ---------- */

  class BufferedLiveTranscriptionSession {
    const meetingId: nat
    const source: nat
    const buffer: BoundedAudioChunkBuffer
    var previousAcceptedText: Option<string>
    var isStopping: bool

    ghost var asked: seq<Ask>     // every call of the processor

    // Between two calls the buffer is empty.
    ghost predicate Valid()
      reads this, buffer
    {
      buffer.Valid() && buffer.chunks == [] && buffer.isClosed == isStopping &&
      (isStopping ==> previousAcceptedText.None?)
    }

    constructor (meetingId: nat, source: nat, bufferSize: nat)
      requires bufferSize > 0
      ensures Valid() && fresh(buffer) && !isStopping && previousAcceptedText.None? && asked == []
      ensures this.meetingId == meetingId && this.source == source
    {
      this.meetingId, this.source := meetingId, source;
      buffer := new BoundedAudioChunkBuffer(bufferSize);
      previousAcceptedText, isStopping, asked := None, false, [];
    }

    // A result is always for this chunk and never reports a gap; an error changes no context.
    method ProcessChunk(chunk: Chunk, answer: Answer) returns (r: Result<ChunkResult, ProcessingError>)
      requires Valid()
      modifies this, buffer
      ensures Valid() && isStopping == old(isStopping)
      ensures r == (
        if isStopping then Err(RuntimeError)
        else if chunk.meetingId != meetingId || chunk.source != source then Err(ValidationError)
        else Processed(chunk.sequence, answer))
      ensures asked ==
        if isStopping || chunk.meetingId != meetingId || chunk.source != source then old(asked)
        else old(asked) + [Ask(chunk.sequence, old(previousAcceptedText))]
      ensures previousAcceptedText ==
        if r.Ok? && r.value.texts != [] then Some(r.value.texts[|r.value.texts| - 1]) else old(previousAcceptedText)
    {
      if isStopping {
        return Err(RuntimeError);
      }
      if chunk.meetingId != meetingId || chunk.source != source {
        return Err(ValidationError);
      }
      var dropped := buffer.Put(chunk);
      if dropped.Err? {
        return Err(RuntimeError);
      }
      assert buffer.chunks == [chunk];
      var buffered := buffer.Get();
      if buffered.Err? {
        return Err(RuntimeError);
      }
      assert ([buffered.value] + buffer.chunks)[0] == buffered.value;
      asked := asked + [Ask(buffered.value.sequence, previousAcceptedText)];
      r := Processed(buffered.value.sequence, answer);
      if r.Err? {
        return;
      }
      if r.value.texts != [] {
        previousAcceptedText := Some(r.value.texts[|r.value.texts| - 1]);
      }
      if dropped.value.Some? {
        r := WithGap(r);
      }
    }

    method Stop()
      requires Valid()
      modifies this, buffer
      ensures Valid() && isStopping && asked == old(asked)
      ensures previousAcceptedText == if old(isStopping) then old(previousAcceptedText) else None
    {
      if isStopping {
        return;
      }
      isStopping := true;
      buffer.Close();
      previousAcceptedText := None;
    }
  }

  // The status of a result whose put pushed out an older chunk.
  function WithGap(r: Result<ChunkResult, ProcessingError>): Result<ChunkResult, ProcessingError> {
    match r
    case Ok(result) => Ok(result.(gap := true))
    case Err(_) => r
  }

  function Processed(sequence: nat, answer: Answer): Result<ChunkResult, ProcessingError> {
    match answer
    case Accepted(texts) => Ok(ChunkResult(sequence, texts, false))
    case Invalid => Err(ValidationError)
    case ProviderFails => Err(ProviderError)
    case Breaks => Err(RuntimeError)
  }

  /* ---------- the messages of a connection ---------- */

  datatype StartOutcome = StartAccepted(sessionId: nat, meetingId: nat, source: nat, assistUnavailable: bool)
                        | StartRejected
                        | StartFails
                        | StartedSendFails(failedId: nat)

  datatype Message =
    | Disconnect
    | InvalidControl
    | StartSession(outcome: StartOutcome)
    | EndSession(sessionId: nat, lastSequence: int)
    | OtherControl
    | NoContent
    | OversizedFrame
    | MalformedFrame
    | AudioFrame(frameSession: nat, sequence: nat, source: nat, answer: Answer, followUpFails: bool)

  datatype ErrorCode =
    | InvalidControlMessage | SessionAlreadyStarted | SessionStartRejected | SessionStartFailed | AssistUnavailable
    | InvalidSession | InvalidLastSequence | UnexpectedMessage | InvalidMessage | SessionRequired
    | InvalidAudioFrame | UnexpectedSequence | ProviderFailed | InternalError

  datatype Reply =
    | SessionStarted(sessionId: nat)
    | SessionStopped(sessionId: nat)
    | ResultSent(result: ChunkResult)
    | ProviderStatus(sequence: nat)
    | Error(code: ErrorCode, fatal: bool, expectedSequence: Option<nat>)
    | Close(closeCode: nat)

  datatype Session = Session(id: nat, meetingId: nat, source: nat, previous: Option<string>, asked: seq<Ask>)

  datatype Connection = Connection(
    open: bool, session: Option<Session>, expected: nat, violations: nat, sent: seq<Reply>)

  const OPENED := Connection(true, None, 0, 0, [])

  function Say(c: Connection, reply: Reply): Connection {
    c.(sent := c.sent + [reply])
  }

  function CloseWith(c: Connection, code: nat): Connection {
    Say(c, Close(code)).(open := false)
  }

  function Complain(c: Connection, code: ErrorCode): Connection {
    Say(c, Error(code, false, None))
  }

  function ComplainExpecting(c: Connection, code: ErrorCode): Connection {
    Say(c, Error(code, false, Some(c.expected)))
  }

  function FailExpecting(c: Connection, code: ErrorCode, closeCode: nat): Connection {
    CloseWith(Say(c, Error(code, true, Some(c.expected))), closeCode)
  }

  function Fail(c: Connection, code: ErrorCode, closeCode: nat): Connection {
    CloseWith(Say(c, Error(code, true, None)), closeCode)
  }

  function OnStart(c: Connection, outcome: StartOutcome): Connection {
    if c.session.Some? then Complain(c, SessionAlreadyStarted)
    else
      match outcome
      case StartRejected => Fail(c, SessionStartRejected, 4400)
      case StartFails => Fail(c, SessionStartFailed, 1011)
      case StartedSendFails(id) => Fail(c, SessionStartFailed, 1011)
      case StartAccepted(id, meetingId, source, assistUnavailable) =>
        var started := Say(
          c.(session := Some(Session(id, meetingId, source, None, [])), expected := 0, violations := 0),
            SessionStarted(id));
        if assistUnavailable then Complain(started, AssistUnavailable) else started
  }

  // Stopping the session clears its context.
  function Silenced(c: Connection): Connection {
    if c.session.None? then c else c.(session := Some(c.session.value.(previous := None)))
  }

  // What is left when the connection's coroutine has ended: it always stops its session.
  function Ended(c: Connection): Connection {
    if c.open then c else Silenced(c)
  }

  function OnEnd(c: Connection, sessionId: nat, lastSequence: int): Connection {
    if c.session.None? || sessionId != c.session.value.id then ComplainExpecting(c, InvalidSession)
    else if lastSequence != (if c.expected > 0 then c.expected - 1 else 0) then ComplainExpecting(c,
      InvalidLastSequence)
    else CloseWith(Say(Silenced(c), SessionStopped(sessionId)), 1000)
  }

  // A frame of the wrong session or sequence.
  function OnViolation(c: Connection): Connection {
    var counted := c.(violations := c.violations + 1);
    if counted.violations >= MAX_SEQUENCE_VIOLATIONS then FailExpecting(counted, UnexpectedSequence, 4400)
    else ComplainExpecting(counted, UnexpectedSequence)
  }

  // The result is sent, and its last text is the context of the next chunk.
  function Answered(c: Connection, result: ChunkResult): Connection
    requires c.session.Some?
  {
    var s := c.session.value;
    var heard := if result.texts == [] then s else s.(previous := Some(result.texts[|result.texts| - 1]));
    Say(c.(session := Some(heard)), ResultSent(result))
  }

  // The expected sequence moves on only when nothing failed after the result either.
  function OnResult(c: Connection, result: ChunkResult, followUpFails: bool): Connection
    requires c.session.Some?
  {
    if followUpFails then Fail(Answered(c, result), InternalError, 1011)
    else Answered(c, result).(expected := c.expected + 1)
  }

  function OnProcessed(
      c: Connection, processed: Result<ChunkResult, ProcessingError>, followUpFails: bool): Connection
    requires c.session.Some?
  {
    match processed
    case Err(ValidationError) => FailExpecting(c, InvalidAudioFrame, 4400)
    case Err(ProviderError) => ComplainExpecting(Say(c, ProviderStatus(c.expected)), ProviderFailed)
    case Err(RuntimeError) => Fail(c, InternalError, 1011)
    case Ok(result) => OnResult(c, result, followUpFails)
  }

  function OnAudio(
      c: Connection, frameSession: nat, sequence: nat, source: nat, answer: Answer, followUpFails: bool): Connection
    requires c.session.Some?
  {
    var s := c.session.value;
    if frameSession != s.id || sequence != c.expected then OnViolation(c)
    else if source != s.source then FailExpecting(c, InvalidAudioFrame, 4400)
    else
      OnProcessed(c.(session := Some(s.(asked := s.asked + [Ask(sequence, s.previous)]))),
        Processed(sequence, answer), followUpFails)
  }

  function Handled(c: Connection, m: Message): Connection {
    if !c.open then c
    else
      match m
      case Disconnect => c.(open := false)
      case InvalidControl => Complain(c, InvalidControlMessage)
      case StartSession(outcome) => OnStart(c, outcome)
      case EndSession(id, last) => OnEnd(c, id, last)
      case OtherControl =>
        if c.session.Some? then ComplainExpecting(c, UnexpectedMessage) else Complain(c, UnexpectedMessage)
      case NoContent => Complain(c, InvalidMessage)
      case OversizedFrame => if c.session.None? then Complain(c, SessionRequired) else CloseWith(c, 1009)
      case MalformedFrame =>
        if c.session.None? then Complain(c, SessionRequired) else FailExpecting(c, InvalidAudioFrame, 4400)
      case AudioFrame(session, sequence, source, answer, fails) =>
        if c.session.None? then Complain(c, SessionRequired)
        else OnAudio(c, session, sequence, source, answer, fails)
  }

  function Served(messages: seq<Message>): Connection {
    if messages == [] then OPENED else Handled(Served(messages[..|messages| - 1]), messages[|messages| - 1])
  }

  /* ---------- the loop itself ---------- */

  // The frame of the connection's coroutine: its loop variables and the session object it created.
  class ConnectionHandler {
    var activeSession: Option<BufferedLiveTranscriptionSession>
    var sessionId: nat
    var expectedSequence: nat
    var sequenceViolations: nat
    var isOpen: bool
    var sent: seq<Reply>

    ghost function Owned(): set<object>
      reads this
    {
      if activeSession.Some? then {activeSession.value} else {}
    }

    ghost function Buffers(): set<object>
      reads this, Owned()
    {
      if activeSession.Some? then {activeSession.value.buffer} else {}
    }

    ghost predicate Valid()
      reads this, Owned(), Buffers()
    {
      activeSession.Some? ==> activeSession.value.Valid() && (isOpen ==> !activeSession.value.isStopping)
    }

    ghost function View(): Connection
      reads this, Owned()
    {
      Connection(isOpen,
        if activeSession.None? then None
        else
          var s := activeSession.value;
          Some(Session(sessionId, s.meetingId, s.source, s.previousAcceptedText, s.asked)),
        expectedSequence, sequenceViolations, sent)
    }

    constructor ()
      ensures Valid() && View() == OPENED && fresh(Owned()) && fresh(Buffers())
    {
      activeSession, sessionId, expectedSequence, sequenceViolations := None, 0, 0, 0;
      isOpen, sent := true, [];
    }

    method Send(reply: Reply)
      modifies this`sent
      ensures View() == Say(old(View()), reply)
    {
      sent := sent + [reply];
    }

    method SendAndClose(reply: Reply, closeCode: nat)
      modifies this`sent, this`isOpen
      ensures View() == CloseWith(Say(old(View()), reply), closeCode)
    {
      sent := sent + [reply] + [Close(closeCode)];
      isOpen := false;
    }

    method StartSession(outcome: StartOutcome)
      requires Valid() && isOpen
      modifies this
      ensures Valid() && View() == OnStart(old(View()), outcome)
      ensures fresh(Owned() - old(Owned())) && fresh(Buffers() - old(Buffers()))
    {
      if activeSession.Some? {
        Send(Error(SessionAlreadyStarted, false, None));
        return;
      }
      match outcome
      case StartRejected => SendAndClose(Error(SessionStartRejected, true, None), 4400);
      case StartFails => SendAndClose(Error(SessionStartFailed, true, None), 1011);
      case StartedSendFails(_) => SendAndClose(Error(SessionStartFailed, true, None), 1011);
      case StartAccepted(id, meetingId, source, assistUnavailable) =>
        var session := new BufferedLiveTranscriptionSession(meetingId, source, 3);
        activeSession := Some(session);
        sessionId, expectedSequence, sequenceViolations := id, 0, 0;
        Send(SessionStarted(id));
        if assistUnavailable {
          Send(Error(AssistUnavailable, false, None));
        }
    }

    method EndSession(id: nat, lastSequence: int)
      requires Valid() && isOpen
      modifies this`sent, this`isOpen, Owned(), Buffers()
      ensures Valid() && View() == OnEnd(old(View()), id, lastSequence)
      ensures activeSession == old(activeSession)
    {
      if activeSession.None? || id != sessionId {
        Send(Error(InvalidSession, false, Some(expectedSequence)));
      } else if lastSequence != (if expectedSequence > 0 then expectedSequence - 1 else 0) {
        Send(Error(InvalidLastSequence, false, Some(expectedSequence)));
      } else {
        activeSession.value.Stop();
        SendAndClose(SessionStopped(id), 1000);
      }
    }

    method AudioFrame(frameSession: nat, sequence: nat, source: nat, answer: Answer, followUpFails: bool)
      requires Valid() && isOpen && activeSession.Some?
      modifies this, Owned(), Buffers()
      ensures Valid() && View() == OnAudio(old(View()), frameSession, sequence, source, answer, followUpFails)
      ensures activeSession == old(activeSession)
    {
      if frameSession != sessionId || sequence != expectedSequence {
        sequenceViolations := sequenceViolations + 1;
        if sequenceViolations >= MAX_SEQUENCE_VIOLATIONS {
          SendAndClose(Error(UnexpectedSequence, true, Some(expectedSequence)), 4400);
        } else {
          Send(Error(UnexpectedSequence, false, Some(expectedSequence)));
        }
        return;
      }
      var processed := activeSession.value.ProcessChunk(Chunk(activeSession.value.meetingId, sequence, source), answer);
      match processed
      case Err(ValidationError) => SendAndClose(Error(InvalidAudioFrame, true, Some(expectedSequence)), 4400);
      case Err(ProviderError) =>
        Send(ProviderStatus(expectedSequence));
        Send(Error(ProviderFailed, false, Some(expectedSequence)));
      case Err(RuntimeError) => SendAndClose(Error(InternalError, true, None), 1011);
      case Ok(result) =>
        Send(ResultSent(result));
        if followUpFails {
          SendAndClose(Error(InternalError, true, None), 1011);
        } else {
          expectedSequence := expectedSequence + 1;
        }
    }

    method Handle(m: Message)
      requires Valid() && isOpen
      modifies this, Owned(), Buffers()
      ensures Valid() && View() == Handled(old(View()), m)
      ensures fresh(Owned() - old(Owned())) && fresh(Buffers() - old(Buffers()))
    {
      match m
      case Disconnect => isOpen := false;
      case InvalidControl => Send(Error(InvalidControlMessage, false, None));
      case StartSession(outcome) => StartSession(outcome);
      case EndSession(id, last) => EndSession(id, last);
      case OtherControl =>
        Send(Error(UnexpectedMessage, false, if activeSession.Some? then Some(expectedSequence) else None));
      case NoContent => Send(Error(InvalidMessage, false, None));
      case OversizedFrame =>
        if activeSession.None? {
          Send(Error(SessionRequired, false, None));
        } else {
          sent := sent + [Close(1009)];
          isOpen := false;
        }
      case MalformedFrame =>
        if activeSession.None? {
          Send(Error(SessionRequired, false, None));
        } else {
          SendAndClose(Error(InvalidAudioFrame, true, Some(expectedSequence)), 4400);
        }
      case AudioFrame(session, sequence, source, answer, fails) =>
        if activeSession.None? {
          Send(Error(SessionRequired, false, None));
        } else {
          AudioFrame(session, sequence, source, answer, fails);
        }
    }

    // The loop: message after message until the connection is closed; then the session is stopped, if any.
    method Serve(messages: seq<Message>)
      requires Valid() && View() == OPENED
      modifies this, Owned(), Buffers()
      ensures Valid() && View() == Ended(Served(messages))
      ensures !isOpen && activeSession.Some? ==> activeSession.value.isStopping && activeSession.value.buffer.isClosed
    {
      var n := 0;
      while n < |messages| && isOpen
        invariant 0 <= n <= |messages| && Valid()
        invariant fresh(Owned() - old(Owned())) && fresh(Buffers() - old(Buffers()))
        invariant View() == Served(messages[..n])
      {
        assert messages[..n + 1][..n] == messages[..n];
        Handle(messages[n]);
        n := n + 1;
      }
      assert messages[..|messages|] == messages;
      if n < |messages| {
        ClosedStaysUpTo(messages, n);
      }
      if !isOpen && activeSession.Some? {
        activeSession.value.Stop();
      }
    }
  }

  lemma {:induction false} ClosedStaysUpTo(messages: seq<Message>, n: nat)
    requires n < |messages| && !Served(messages[..n]).open
    ensures Served(messages) == Served(messages[..n])
    decreases |messages|
  {
    var front := messages[..|messages| - 1];
    assert front[..n] == messages[..n];
    if n < |front| {
      ClosedStaysUpTo(front, n);
    }
  }

  /* ---------- what every run keeps ---------- */

  // The chunk results sent, in order.
  function Results(sent: seq<Reply>): seq<ChunkResult> {
    if sent == [] then []
    else
      var before, last := Results(sent[..|sent| - 1]), sent[|sent| - 1];
      if last.ResultSent? then before + [last.result] else before
  }

  // How many times an unexpected sequence was complained about.
  function Violations(sent: seq<Reply>): nat {
    if sent == [] then 0
    else
      var last := sent[|sent| - 1];
      Violations(sent[..|sent| - 1]) + if last.Error? && last.code == UnexpectedSequence then 1 else 0
  }

  lemma {:induction false} SayAdds(sent: seq<Reply>, reply: Reply)
    ensures Results(sent + [reply]) == if reply.ResultSent? then Results(sent) + [reply.result] else Results(sent)
    ensures Violations(sent + [reply]) ==
      Violations(sent) + if reply.Error? && reply.code == UnexpectedSequence then 1 else 0
  {
    assert (sent + [reply])[..|sent|] == sent;
  }

  // The text accepted last among some results.
  function LastText(results: seq<ChunkResult>): Option<string> {
    if results == [] then None
    else
      var last := results[|results| - 1];
      if last.texts != [] then Some(last.texts[|last.texts| - 1]) else LastText(results[..|results| - 1])
  }

  ghost predicate InSequence(results: seq<ChunkResult>, k: nat)
    requires k < |results|
  {
    results[k].sequence == k && !results[k].gap
  }

  // Results carry 0, 1, 2, ... and no gap; the expected sequence counts them while the connection is open;
  // violations are counted and the third one closes; the context is the last accepted text.
  ghost predicate RunSound(c: Connection) {
    var results := Results(c.sent);
    (forall k {:trigger InSequence(results, k)} :: 0 <= k < |results| ==> InSequence(results, k)) &&
    (c.open ==> |results| == c.expected) && c.expected <= |results| <= c.expected + 1 &&
    Violations(c.sent) == c.violations <= MAX_SEQUENCE_VIOLATIONS &&
    (c.open ==> c.violations < MAX_SEQUENCE_VIOLATIONS) &&
    (c.session.None? ==> c.violations == 0 && results == []) &&
    (c.open && c.session.Some? ==> c.session.value.previous == LastText(results))
  }

  lemma {:induction false} QuietReply(c: Connection, reply: Reply)
    requires RunSound(c) && !reply.ResultSent? && !(reply.Error? && reply.code == UnexpectedSequence)
    ensures RunSound(Say(c, reply)) && Results(Say(c, reply).sent) == Results(c.sent)
  {
    SayAdds(c.sent, reply);
  }

  lemma {:induction false} CloseKeepsSound(c: Connection, code: nat)
    requires RunSound(c)
    ensures RunSound(CloseWith(c, code)) && Results(CloseWith(c, code).sent) == Results(c.sent)
  {
    SayAdds(c.sent, Close(code));
  }

  lemma {:induction false} ClosingKeepsSound(c: Connection, reply: Reply, code: nat)
    requires RunSound(c) && !reply.ResultSent? && !(reply.Error? && reply.code == UnexpectedSequence)
    ensures RunSound(CloseWith(Say(c, reply), code))
  {
    QuietReply(c, reply);
    CloseKeepsSound(Say(c, reply), code);
  }

  lemma {:induction false} StoppingKeepsSound(c: Connection, id: nat)
    requires RunSound(CloseWith(Say(c, SessionStopped(id)), 1000))
    ensures RunSound(CloseWith(Say(Silenced(c), SessionStopped(id)), 1000))
  {
  }

  lemma {:induction false} ViolationKeepsSound(c: Connection)
    requires RunSound(c) && c.open && c.session.Some?
    ensures RunSound(OnViolation(c))
  {
    var e := Error(UnexpectedSequence, c.violations + 1 >= MAX_SEQUENCE_VIOLATIONS, Some(c.expected));
    SayAdds(c.sent, e);
    SayAdds(c.sent + [e], Close(4400));
  }

  lemma {:induction false} AnsweredKeepsSound(c: Connection, result: ChunkResult)
    requires RunSound(c) && c.open && c.session.Some? && result.sequence == c.expected && !result.gap
    ensures RunSound(Answered(c, result).(expected := c.expected + 1))
  {
    var before := Results(c.sent);
    SayAdds(c.sent, ResultSent(result));
    var after := before + [result];
    assert after[..|before|] == before;
    forall k | 0 <= k < |after| ensures InSequence(after, k) {
      assert k < |before| ==> InSequence(before, k);
    }
  }

  // A closed connection need not have counted its last result.
  lemma {:induction false} UncountedKeepsSound(c: Connection)
    requires RunSound(c) && !c.open && c.expected > 0 && |Results(c.sent)| == c.expected
    ensures RunSound(c.(expected := c.expected - 1))
  {
  }

  lemma {:induction false} FailedAfterResult(c: Connection, result: ChunkResult)
    requires RunSound(c) && c.open && c.session.Some? && result.sequence == c.expected && !result.gap
    ensures RunSound(Fail(Answered(c, result), InternalError, 1011))
  {
    AnsweredKeepsSound(c, result);
    var counted := Answered(c, result).(expected := c.expected + 1);
    ClosingKeepsSound(counted, Error(InternalError, true, None), 1011);
    QuietReply(counted, Error(InternalError, true, None));
    CloseKeepsSound(Say(counted, Error(InternalError, true, None)), 1011);
    UncountedKeepsSound(Fail(counted, InternalError, 1011));
  }

  lemma {:induction false} ProcessedKeepsSound(
      c: Connection, processed: Result<ChunkResult, ProcessingError>, followUpFails: bool)
    requires RunSound(c) && c.open && c.session.Some?
    requires processed.Ok? ==> processed.value.sequence == c.expected && !processed.value.gap
    ensures RunSound(OnProcessed(c, processed, followUpFails))
  {
    match processed
    case Ok(result) =>
      if followUpFails { FailedAfterResult(c, result); } else { AnsweredKeepsSound(c, result); }
    case Err(ValidationError) => ClosingKeepsSound(c, Error(InvalidAudioFrame, true, Some(c.expected)), 4400);
    case Err(ProviderError) =>
      QuietReply(c, ProviderStatus(c.expected));
      QuietReply(Say(c, ProviderStatus(c.expected)), Error(ProviderFailed, false, Some(c.expected)));
    case Err(RuntimeError) => ClosingKeepsSound(c, Error(InternalError, true, None), 1011);
  }

  lemma {:induction false} AskingKeepsSound(c: Connection, ask: Ask)
    requires RunSound(c) && c.session.Some?
    ensures RunSound(c.(session := Some(c.session.value.(asked := c.session.value.asked + [ask]))))
  {
  }

  lemma {:induction false} AudioKeepsSound(
      c: Connection, frameSession: nat, sequence: nat, source: nat, answer: Answer, followUpFails: bool)
    requires RunSound(c) && c.open && c.session.Some?
    ensures RunSound(OnAudio(c, frameSession, sequence, source, answer, followUpFails))
  {
    var s := c.session.value;
    if frameSession != s.id || sequence != c.expected {
      ViolationKeepsSound(c);
    } else if source != s.source {
      ClosingKeepsSound(c, Error(InvalidAudioFrame, true, Some(c.expected)), 4400);
    } else {
      AskingKeepsSound(c, Ask(sequence, s.previous));
      var asking := c.(session := Some(s.(asked := s.asked + [Ask(sequence, s.previous)])));
      ProcessedKeepsSound(asking, Processed(sequence, answer), followUpFails);
    }
  }

  lemma {:induction false} StartKeepsSound(c: Connection, outcome: StartOutcome)
    requires RunSound(c) && c.open
    ensures RunSound(OnStart(c, outcome))
  {
    if c.session.Some? {
      QuietReply(c, Error(SessionAlreadyStarted, false, None));
    } else {
      match outcome
      case StartRejected => ClosingKeepsSound(c, Error(SessionStartRejected, true, None), 4400);
      case StartFails => ClosingKeepsSound(c, Error(SessionStartFailed, true, None), 1011);
      case StartedSendFails(_) => ClosingKeepsSound(c, Error(SessionStartFailed, true, None), 1011);
      case StartAccepted(id, meetingId, source, assistUnavailable) =>
        BegunKeepsSound(c, Session(id, meetingId, source, None, []), assistUnavailable);
    }
  }

  lemma {:induction false} BegunKeepsSound(c: Connection, s: Session, assistUnavailable: bool)
    requires RunSound(c) && c.open && c.session.None? && s.previous.None?
    ensures var started := Say(c.(session := Some(s), expected := 0, violations := 0), SessionStarted(s.id));
            RunSound(if assistUnavailable then Complain(started, AssistUnavailable) else started)
  {
    var begun := c.(session := Some(s), expected := 0, violations := 0);
    assert RunSound(begun);
    QuietReply(begun, SessionStarted(s.id));
    if assistUnavailable {
      QuietReply(Say(begun, SessionStarted(s.id)), Error(AssistUnavailable, false, None));
    }
  }

  lemma {:induction false} EndKeepsSound(c: Connection, id: nat, last: int)
    requires RunSound(c) && c.open
    ensures RunSound(OnEnd(c, id, last))
  {
    if c.session.None? || id != c.session.value.id {
      QuietReply(c, Error(InvalidSession, false, Some(c.expected)));
    } else if last != (if c.expected > 0 then c.expected - 1 else 0) {
      QuietReply(c, Error(InvalidLastSequence, false, Some(c.expected)));
    } else {
      ClosingKeepsSound(c, SessionStopped(id), 1000);
      StoppingKeepsSound(c, id);
    }
  }

  lemma {:induction false} HandledKeepsSound(c: Connection, m: Message)
    requires RunSound(c)
    ensures RunSound(Handled(c, m))
  {
    if c.open {
      match m
      case StartSession(outcome) => StartKeepsSound(c, outcome);
      case EndSession(id, last) => EndKeepsSound(c, id, last);
      case AudioFrame(session, sequence, source, answer, fails) =>
        if c.session.Some? {
          AudioKeepsSound(c, session, sequence, source, answer, fails);
        } else {
          QuietReply(c, Error(SessionRequired, false, None));
        }
      case _ => OtherKeepsSound(c, m);
    }
  }

  lemma {:induction false} OtherKeepsSound(c: Connection, m: Message)
    requires RunSound(c) && c.open && !m.StartSession? && !m.EndSession? && !m.AudioFrame?
    ensures RunSound(Handled(c, m))
  {
    QuietReply(c, Error(InvalidControlMessage, false, None));
    QuietReply(c, Error(UnexpectedMessage, false, None));
    QuietReply(c, Error(UnexpectedMessage, false, Some(c.expected)));
    QuietReply(c, Error(InvalidMessage, false, None));
    QuietReply(c, Error(SessionRequired, false, None));
    ClosingKeepsSound(c, Error(InvalidAudioFrame, true, Some(c.expected)), 4400);
    CloseKeepsSound(c, 1009);
  }

  // Over any trace of messages.
  lemma {:induction false} EveryTraceIsSound(messages: seq<Message>)
    ensures RunSound(Served(messages))
    decreases |messages|
  {
    if messages != [] {
      EveryTraceIsSound(messages[..|messages| - 1]);
      HandledKeepsSound(Served(messages[..|messages| - 1]), messages[|messages| - 1]);
    }
  }

  // Chunk results carry the sequences 0, 1, 2, ..., none of them reports a gap, and while the connection is
  // open the expected sequence is the number of results sent.
  lemma {:induction false} ResultsAreConsecutive(messages: seq<Message>)
    ensures var c := Served(messages);
            (forall k :: 0 <= k < |Results(c.sent)| ==> Results(c.sent)[k].sequence == k && !Results(c.sent)[k].gap) &&
            (c.open ==> c.expected == |Results(c.sent)|)
  {
    EveryTraceIsSound(messages);
    var results := Results(Served(messages).sent);
    forall k | 0 <= k < |results| ensures results[k].sequence == k && !results[k].gap {
      assert InSequence(results, k);
    }
  }

  // A frame of the wrong session or sequence is answered, never processed; the third one closes.
  lemma {:induction false} ThirdViolationCloses(messages: seq<Message>, m: Message)
    requires Served(messages).open && Served(messages).session.Some? && m.AudioFrame?
    requires m.frameSession != Served(messages).session.value.id || m.sequence != |Results(Served(messages).sent)|
    ensures var before, after := Served(messages), Handled(Served(messages), m);
            Violations(before.sent) < 3 && after.session == before.session &&
            Results(after.sent) == Results(before.sent) && Violations(after.sent) == Violations(before.sent) + 1 &&
            (!after.open <==> Violations(after.sent) == 3) &&
            (!after.open ==> after.sent[|after.sent| - 1] == Close(4400))
  {
    EveryTraceIsSound(messages);
    var c := Served(messages);
    var e := Error(UnexpectedSequence, c.violations + 1 >= MAX_SEQUENCE_VIOLATIONS, Some(c.expected));
    SayAdds(c.sent, e);
    SayAdds(c.sent + [e], Close(4400));
  }

  // The session is stopped in answer to a message exactly when that message ends this session and names
  // the sequence of the last result, or 0 when there was none.
  lemma {:induction false} StopNeedsTheLastSequence(messages: seq<Message>, m: Message)
    requires Served(messages).open
    ensures var c := Served(messages);
            var n := |Results(c.sent)|;
            var stopped := SessionStopped(if m.EndSession? then m.sessionId else 0);
            Handled(c, m).sent == c.sent + [stopped] + [Close(1000)] <==>
              c.session.Some? && m == EndSession(c.session.value.id, if n > 0 then n - 1 else 0)
  {
    EveryTraceIsSound(messages);
    var c := Served(messages);
    if !m.EndSession? {
      OnlyEndStops(c, m, SessionStopped(0));
    }
  }

  lemma {:induction false} OnlyEndStops(c: Connection, m: Message, stopped: Reply)
    requires c.open && !m.EndSession? && stopped.SessionStopped?
    ensures Handled(c, m).sent != c.sent + [stopped] + [Close(1000)]
  {
    var wanted, after := c.sent + [stopped] + [Close(1000)], Handled(c, m).sent;
    assert wanted[|c.sent|] == stopped;
    assert |after| > |c.sent| ==> !after[|c.sent|].SessionStopped?;
  }

  // A provider error keeps the connection open and the same sequence expected, so sending the very same
  // chunk again gets the result the first attempt did not.
  lemma {:induction false} ProviderErrorsCanBeRetried(messages: seq<Message>, m: Message, texts: seq<string>)
    requires Served(messages).open && Served(messages).session.Some?
    requires m.AudioFrame? && m.answer.ProviderFails? && m.frameSession == Served(messages).session.value.id
    requires m.sequence == |Results(Served(messages).sent)| && m.source == Served(messages).session.value.source
    ensures var c := Served(messages);
            var failed := Handled(c, m);
            var retried := Handled(failed, m.(answer := Accepted(texts), followUpFails := false));
            failed.open && failed.expected == c.expected && Results(failed.sent) == Results(c.sent) &&
            Results(retried.sent) == Results(c.sent) + [ChunkResult(m.sequence, texts, false)]
  {
    EveryTraceIsSound(messages);
    ProviderErrorKeepsResults(Served(messages), m);
    AcceptedAddsResult(Handled(Served(messages), m), m.(answer := Accepted(texts), followUpFails := false));
  }

  // A frame of this session with the expected sequence and the session's source.
  predicate Expected(c: Connection, m: Message) {
    c.open && c.session.Some? && m.AudioFrame? && m.frameSession == c.session.value.id && m.sequence == c.expected &&
    m.source == c.session.value.source
  }

  lemma {:induction false} ProviderErrorKeepsResults(c: Connection, m: Message)
    requires Expected(c, m) && m.answer.ProviderFails?
    ensures Expected(Handled(c, m), m) && Results(Handled(c, m).sent) == Results(c.sent)
  {
    SayAdds(c.sent, ProviderStatus(c.expected));
    SayAdds(c.sent + [ProviderStatus(c.expected)], Error(ProviderFailed, false, Some(c.expected)));
  }

  lemma {:induction false} AcceptedAddsResult(c: Connection, m: Message)
    requires Expected(c, m) && m.answer.Accepted? && !m.followUpFails
    ensures Results(Handled(c, m).sent) == Results(c.sent) + [ChunkResult(m.sequence, m.answer.texts, false)]
  {
    SayAdds(c.sent, ResultSent(ChunkResult(m.sequence, m.answer.texts, false)));
  }

  // What one message does to a session in progress, after any messages before it. Only a frame of this session with
  // the sequence of the next result and the session's source reaches the processor, together with the text
  // accepted last; and its answer decides the reply and whether the connection stays open.
  lemma {:induction false} ExactlyExpectedFramesAreProcessed(messages: seq<Message>, m: Message)
    requires Served(messages).open && Served(messages).session.Some?
    ensures var before, after := Served(messages), Handled(Served(messages), m);
            var results, asked := Results(before.sent), before.session.value.asked;
            if m.AudioFrame? && m.frameSession == before.session.value.id && m.sequence == |results| &&
               m.source == before.session.value.source
            then
              after.session.value.asked == asked + [Ask(|results|, LastText(results))] &&
              RepliesTo(m.answer, m.followUpFails, |results|, before, after)
            else after.session.value.asked == asked && Results(after.sent) == results
  {
    EveryTraceIsSound(messages);
    var c := Served(messages);
    if Expected(c, m) {
      AnswerIsReplied(c, m);
    } else if m.AudioFrame? {
      UnexpectedFrameIsNotProcessed(c, m);
    } else {
      OtherKeepsResults(c, m);
    }
  }

  // The reply to a processed chunk: its texts, a status that leaves the sequence open for another attempt, or a
  // fatal error with the client's or the server's close code.
  ghost predicate RepliesTo(answer: Answer, followUpFails: bool, sequence: nat, before: Connection, after: Connection) {
    match answer
    case Accepted(texts) =>
      Results(after.sent) == Results(before.sent) + [ChunkResult(sequence, texts, false)] &&
      (after.open <==> !followUpFails) && (!after.open ==> ClosedWith(after.sent, 1011))
    case ProviderFails =>
      after.open && after.expected == before.expected &&
      after.sent == before.sent + [ProviderStatus(sequence)] + [Error(ProviderFailed, false, Some(sequence))]
    case Invalid => !after.open && Results(after.sent) == Results(before.sent) && ClosedWith(after.sent, 4400)
    case Breaks => !after.open && Results(after.sent) == Results(before.sent) && ClosedWith(after.sent, 1011)
  }

  predicate ClosedWith(sent: seq<Reply>, code: nat) {
    sent != [] && sent[|sent| - 1] == Close(code)
  }

  lemma {:induction false} ClosingAddsNoResult(sent: seq<Reply>, reply: Reply, code: nat)
    requires !reply.ResultSent?
    ensures Results(sent + [reply] + [Close(code)]) == Results(sent + [Close(code)]) == Results(sent)
  {
    SayAdds(sent, reply);
    SayAdds(sent, Close(code));
    SayAdds(sent + [reply], Close(code));
  }

  lemma {:induction false} AnswerIsReplied(c: Connection, m: Message)
    requires Expected(c, m) && c.expected == |Results(c.sent)|
    ensures Handled(c, m).session.Some?
    ensures Handled(c, m).session.value.asked ==
      c.session.value.asked + [Ask(c.expected, c.session.value.previous)]
    ensures RepliesTo(m.answer, m.followUpFails, c.expected, c, Handled(c, m))
  {
    match m.answer
    case Accepted(texts) =>
      var result := ResultSent(ChunkResult(m.sequence, texts, false));
      SayAdds(c.sent, result);
      ClosingAddsNoResult(c.sent + [result], Error(InternalError, true, None), 1011);
    case ProviderFails =>
    case Invalid => ClosingAddsNoResult(c.sent, Error(InvalidAudioFrame, true, Some(c.expected)), 4400);
    case Breaks => ClosingAddsNoResult(c.sent, Error(InternalError, true, None), 1011);
  }

  lemma {:induction false} UnexpectedFrameIsNotProcessed(c: Connection, m: Message)
    requires c.open && c.session.Some? && m.AudioFrame? && !Expected(c, m)
    ensures Handled(c, m).session == c.session && Results(Handled(c, m).sent) == Results(c.sent)
  {
    if m.frameSession != c.session.value.id || m.sequence != c.expected {
      ViolationKeepsResults(c);
    } else {
      ClosingAddsNoResult(c.sent, Error(InvalidAudioFrame, true, Some(c.expected)), 4400);
    }
  }

  lemma {:induction false} ViolationKeepsResults(c: Connection)
    ensures OnViolation(c).session == c.session && Results(OnViolation(c).sent) == Results(c.sent)
  {
    SayAdds(c.sent, Error(UnexpectedSequence, false, Some(c.expected)));
    ClosingAddsNoResult(c.sent, Error(UnexpectedSequence, true, Some(c.expected)), 4400);
  }

  lemma {:induction false} OtherKeepsResults(c: Connection, m: Message)
    requires c.open && c.session.Some? && !m.AudioFrame?
    ensures Handled(c, m).session.Some? && Handled(c, m).session.value.asked == c.session.value.asked
    ensures Results(Handled(c, m).sent) == Results(c.sent)
  {
    if m.EndSession? {
      SayAdds(c.sent, Error(InvalidSession, false, Some(c.expected)));
      SayAdds(c.sent, Error(InvalidLastSequence, false, Some(c.expected)));
      ClosingAddsNoResult(c.sent, SessionStopped(m.sessionId), 1000);
    } else if m.StartSession? {
      SayAdds(c.sent, Error(SessionAlreadyStarted, false, None));
    } else {
      SayAdds(c.sent, Error(InvalidControlMessage, false, None));
      SayAdds(c.sent, Error(UnexpectedMessage, false, Some(c.expected)));
      SayAdds(c.sent, Error(InvalidMessage, false, None));
      ClosingAddsNoResult(c.sent, Error(InvalidAudioFrame, true, Some(c.expected)), 4400);
      ClosingAddsNoResult(c.sent, Error(InvalidAudioFrame, true, Some(c.expected)), 1009);
    }
  }

  // What a message that neither progresses nor closes is told: the fault, and the expected sequence once there is a
  // session to expect one for.
  lemma {:induction false} ComplaintsNameTheFault(c: Connection, m: Message)
    requires c.open
    ensures m.InvalidControl? ==> Handled(c, m).sent == c.sent + [Error(InvalidControlMessage, false, None)]
    ensures m.NoContent? ==> Handled(c, m).sent == c.sent + [Error(InvalidMessage, false, None)]
    ensures m.StartSession? && c.session.Some? ==>
      Handled(c, m).sent == c.sent + [Error(SessionAlreadyStarted, false, None)]
    ensures c.session.None? && (m.OversizedFrame? || m.MalformedFrame? || m.AudioFrame?) ==>
      Handled(c, m).sent == c.sent + [Error(SessionRequired, false, None)]
    ensures m.EndSession? && (c.session.None? || c.session.value.id != m.sessionId) ==>
      Handled(c, m).sent == c.sent + [Error(InvalidSession, false, Some(c.expected))]
    ensures m.EndSession? && c.session.Some? && c.session.value.id == m.sessionId && Handled(c, m).open ==>
      Handled(c, m).sent == c.sent + [Error(InvalidLastSequence, false, Some(c.expected))]
    ensures m.OtherControl? ==>
      Handled(c, m).sent ==
        c.sent + [Error(UnexpectedMessage, false, if c.session.Some? then Some(c.expected) else None)]
    ensures m.Disconnect? ==> Handled(c, m).sent == c.sent && !Handled(c, m).open
  {
  }

  // A client that has not left is told why the connection ends: 1000 after its session was stopped, 1009 for an
  // oversized frame, 4400 for what the client did wrong and 1011 for what went wrong in the server.
  lemma {:induction false} CloseCodesTellWhy(c: Connection, m: Message)
    requires c.open && !Handled(c, m).open && !m.Disconnect?
    ensures var sent := Handled(c, m).sent;
            ClosedWith(sent, 1000) || ClosedWith(sent, 1009) || ClosedWith(sent, 1011) || ClosedWith(sent, 4400)
    ensures ClosedWith(Handled(c, m).sent, 1000) <==> m.EndSession?
    ensures ClosedWith(Handled(c, m).sent, 1009) <==> m.OversizedFrame?
    ensures ClosedWith(Handled(c, m).sent, 1011) <==>
      (m.StartSession? && !m.outcome.StartRejected?) ||
      (Expected(c, m) && (m.answer.Breaks? || (m.answer.Accepted? && m.followUpFails)))
  {
  }

  // A connection starts at most one session: once started it is never replaced.
  lemma {:induction false} OneSessionPerConnection(c: Connection, m: Message)
    requires c.session.Some?
    ensures Handled(c, m).session.Some? && Handled(c, m).session.value.id == c.session.value.id
  {
  }
}
