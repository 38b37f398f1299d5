/**
 * What both revisions of the server's voice-session handler share
 * (Handlers/VoiceSessionHandler.cs and VoiceSessionHandler.cs): the WebSocket
 * as the handler sees it, the speech recognizer's running state, the audio
 * push stream with the chunk counters, the frames the server sends, the
 * classification of inbound text frames, the text-to-speech step, the catch
 * block of a turn and the receive loop.
 *
 * Speech recognition, synthesis and the conversation service are foreign
 * calls: the model receives what they returned (or the exception they threw)
 * as parameters.
 */
module SessionCommon {
  import opened Wrappers
  import opened Clr
  import opened Json

  // ------------------------------------------------------------- frames

  /** `WebSocketState`. */
  datatype SocketState = Connecting | Open | CloseSent | CloseReceived | Closed | Aborted

  /** The JSON control messages the server sends (`type` is the constructor). */
  datatype ServerMessage =
    | TranscriptMsg(text: string, role: string)
    | StatusMsg(status: string)
    | ErrorMsg(error: string)

  datatype OutFrame = OutText(message: ServerMessage) | OutBinary(bytes: seq<byte>)

  /** One received WebSocket message; text frames are shown decoded and parsed. */
  datatype InFrame = InClose | InBinary(chunk: seq<byte>) | InText(payload: TextPayload)

  const UserRole: string := "user"
  const AssistantRole: string := "assistant"
  const SpeakingStatus: string := "speaking"
  const ListeningStatus: string := "listening"
  const TypeKey: string := "type"
  const EndSessionType: string := "endSession"
  const ProcessingErrorPrefix: string := "Processing error: "
  const TtsErrorPrefix: string := "TTS error: "

  /** The server end of the WebSocket. */
  class ServerSocket {
    var state: SocketState
    /** The transport is broken: every send on it throws. */
    var faulted: bool
    /** Every frame that went out, oldest first. */
    var sent: seq<OutFrame>
    /** The description of the close handshake the server started, if any. */
    var closeDescription: Option<string>

    constructor (state: SocketState, faulted: bool)
      ensures this.state == state && this.faulted == faulted && sent == [] && closeDescription == None
    {
      this.state, this.faulted, sent, closeDescription := state, faulted, [], None;
    }

    /** A send goes through exactly when the socket is open and the transport works. */
    predicate Writable()
      reads this
    {
      state == Open && !faulted
    }

    /** `SendAsync`: delivers the frame, or throws when the socket cannot take it. */
    method Send(frame: OutFrame) returns (r: Outcome<Exception>)
      modifies this
      ensures r.Pass? <==> old(Writable())
      ensures sent == if old(Writable()) then old(sent) + [frame] else old(sent)
      ensures unchanged(this`state, this`faulted, this`closeDescription)
    {
      if Writable() {
        sent := sent + [frame];
        r := Pass;
      } else {
        r := Fail(Exception("WebSocketException", ["Win32Exception", "ExternalException", "SystemException", "Exception"],
                            "The WebSocket is not able to send."));
      }
    }

    /** `CloseAsync(NormalClosure, description)`. */
    method Close(description: string)
      modifies this
      ensures state == Closed && closeDescription == Some(description)
      ensures unchanged(this`sent, this`faulted)
    {
      state := Closed;
      closeDescription := Some(description);
    }

    /** The peer vanished while the server waited for a message. */
    method Abort()
      modifies this
      ensures state == Aborted
      ensures unchanged(this`sent, this`faulted, this`closeDescription)
    {
      state := Aborted;
    }
  }

  // ------------------------------------------------------------- effects

  /** One observable step of a turn, in the order it happens. */
  datatype Effect =
    | Wrote(frame: OutFrame)
    | CorrectionRequested(text: string)
    | RecognizerStopRequested
    | AnswerRequested(text: string)
    | SynthesisRequested(text: string)
    | RecognizerStartRequested

  /** The frames among `effects`, in order. */
  function FramesOf(effects: seq<Effect>): seq<OutFrame> {
    if effects == [] then []
    else FramesOf(effects[..|effects| - 1])
         + (if effects[|effects| - 1].Wrote? then [effects[|effects| - 1].frame] else [])
  }

  lemma {:induction false} FramesOfAppend(a: seq<Effect>, b: seq<Effect>)
    ensures FramesOf(a + b) == FramesOf(a) + FramesOf(b)
    decreases |b|
  {
    if b == [] {
      assert a + b == a;
    } else {
      assert (a + b)[..|a + b| - 1] == a + b[..|b| - 1];
      FramesOfAppend(a, b[..|b| - 1]);
    }
  }

  /** A step that writes nothing adds no frame. */
  lemma QuietThen(e: Effect, rest: seq<Effect>)
    requires !e.Wrote?
    ensures FramesOf([e] + rest) == FramesOf(rest)
  {
    FramesOfAppend([e], rest);
    assert [e][..0] == [];
  }

  /** A step that writes nothing, appended, adds no frame. */
  lemma AppendQuiet(a: seq<Effect>, e: Effect)
    requires !e.Wrote?
    ensures FramesOf(a + [e]) == FramesOf(a)
  {
    assert (a + [e])[..|a + [e]| - 1] == a;
  }

  /** What was sent before, then the frames of `a`, then those of `b`. */
  lemma SentThen(s0: seq<OutFrame>, a: seq<Effect>, b: seq<Effect>)
    ensures (s0 + FramesOf(a)) + FramesOf(b) == s0 + FramesOf(a + b)
  {
    FramesOfAppend(a, b);
    assert (s0 + FramesOf(a)) + FramesOf(b) == s0 + (FramesOf(a) + FramesOf(b));
  }

  /** A guarded send: the frame goes out only on a writable socket. */
  function Emit(frame: OutFrame, writable: bool): (written: seq<Effect>)
    ensures FramesOf(written) == if writable then [frame] else []
  {
    var w := if writable then [Wrote(frame)] else [];
    assert writable ==> w[..0] == [];
    w
  }

  /**
   * `SendTranscriptAsync`, `SendStatusAsync` and `SendErrorAsync`: the message is
   * sent only while the socket is open, and a failed send is caught.
   */
  method SendMessage(socket: ServerSocket, message: ServerMessage) returns (ghost written: seq<Effect>)
    modifies socket
    ensures written == Emit(OutText(message), old(socket.Writable()))
    ensures socket.sent == old(socket.sent) + FramesOf(written)
    ensures unchanged(socket`state, socket`faulted, socket`closeDescription)
  {
    written := [];
    if socket.state == Open {
      var r := socket.Send(OutText(message));
      if r.Pass? {
        written := [Wrote(OutText(message))];
      }
    }
  }

  // ------------------------------------------------------ text to speech

  /** What `SpeakTextAsync` produced: audio, a cancellation, an exception, or another reason. */
  datatype SynthesisResult =
    | Completed(audio: seq<byte>)
    | SynthesisCanceled(errorDetails: string)
    | SynthesisThrew(message: string)
    | OtherReason

  /**
   * `PerformTextToSpeechAndSendAsync`: the audio as one unguarded binary frame, or
   * a "TTS error" frame. A failed binary send is caught and reported through the
   * guarded error send, which cannot go out on that socket either.
   */
  function SpeakEffects(answer: string, result: SynthesisResult, writable: bool): seq<Effect> {
    [SynthesisRequested(answer)]
    + match result
      case Completed(audio) => Emit(OutBinary(audio), writable)
      case SynthesisCanceled(details) => Emit(OutText(ErrorMsg(TtsErrorPrefix + details)), writable)
      case SynthesisThrew(message) => Emit(OutText(ErrorMsg(TtsErrorPrefix + message)), writable)
      case OtherReason => []
  }

  /** Synthesis sends at most one frame: the audio when it completed, a TTS error when it failed. */
  lemma SpeakFrames(answer: string, result: SynthesisResult, writable: bool)
    ensures var frames := FramesOf(SpeakEffects(answer, result, writable));
            && |frames| <= 1
            && (forall f :: f in frames && f.OutBinary? ==> result == Completed(f.bytes))
            && (writable && result.Completed? ==> frames == [OutBinary(result.audio)])
            && (|frames| == 1 && frames[0].OutBinary? ==> writable && result.Completed?)
            && (writable && (result.SynthesisCanceled? || result.SynthesisThrew?) <==>
                  |frames| == 1 && frames[0].OutText? && frames[0].message.ErrorMsg?)
            && (!writable ==> frames == [])
            && (forall f :: f in frames ==> f.OutBinary? || f.message.ErrorMsg?)
  {
    var tail := match result
      case Completed(audio) => Emit(OutBinary(audio), writable)
      case SynthesisCanceled(details) => Emit(OutText(ErrorMsg(TtsErrorPrefix + details)), writable)
      case SynthesisThrew(message) => Emit(OutText(ErrorMsg(TtsErrorPrefix + message)), writable)
      case OtherReason => [];
    FramesOfAppend([SynthesisRequested(answer)], tail);
    assert FramesOf([SynthesisRequested(answer)]) == [] by {
      assert [SynthesisRequested(answer)][..0] == [];
    }
  }

  method SpeakAndSend(socket: ServerSocket, answer: string, synthesize: string -> SynthesisResult)
    returns (ghost written: seq<Effect>)
    modifies socket
    ensures written == SpeakEffects(answer, synthesize(answer), old(socket.Writable()))
    ensures socket.sent == old(socket.sent) + FramesOf(written)
    ensures unchanged(socket`state, socket`faulted, socket`closeDescription)
  {
    ghost var before := socket.sent;
    written := [SynthesisRequested(answer)];
    assert FramesOf(written) == [] by {
      assert written[..0] == [];
    }
    var result := synthesize(answer);
    ghost var rest: seq<Effect> := [];
    match result {
      case Completed(audio) =>
        var r := socket.Send(OutBinary(audio));
        if r.Pass? {
          rest := [Wrote(OutBinary(audio))];
        } else {
          rest := SendMessage(socket, ErrorMsg(TtsErrorPrefix + r.error.message));
        }
      case SynthesisCanceled(details) =>
        rest := SendMessage(socket, ErrorMsg(TtsErrorPrefix + details));
      case SynthesisThrew(message) =>
        rest := SendMessage(socket, ErrorMsg(TtsErrorPrefix + message));
      case OtherReason =>
    }
    assert rest == (match result
      case Completed(audio) => Emit(OutBinary(audio), old(socket.Writable()))
      case SynthesisCanceled(details) => Emit(OutText(ErrorMsg(TtsErrorPrefix + details)), old(socket.Writable()))
      case SynthesisThrew(message) => Emit(OutText(ErrorMsg(TtsErrorPrefix + message)), old(socket.Writable()))
      case OtherReason => []);
    FramesOfAppend(written, rest);
    written := written + rest;
  }

  // --------------------------------------------------------------- turns

  /**
   * The collaborators of one turn, as the values they gave: the corrected text,
   * the answer, the synthesis, and the outcomes of stopping the recognizer,
   * starting it again after speaking, and restarting it in the catch block.
   */
  datatype TurnOracles = TurnOracles(
    correct: string -> Result<string, Exception>,
    answer: string -> Result<string, Exception>,
    synthesize: string -> SynthesisResult,
    stop: Outcome<Exception>,
    start: Outcome<Exception>,
    restart: Outcome<Exception>)

  /** The state a turn leaves: the recognition flag, whether the recognizer runs, and what happened. */
  datatype TurnEnd = TurnEnd(active: bool, running: bool, effects: seq<Effect>)

  function ProcessingError(e: Exception): ServerMessage {
    ErrorMsg(ProcessingErrorPrefix + e.message)
  }

  /**
   * The catch block of `ProcessRecognizedTextAsync`, entered with the flag
   * `active` and the recognizer `running`: report the error, then restart
   * recognition unless the flag says it is active.
   */
  function CatchBlock(active: bool, running: bool, writable: bool, e: Exception, restart: Outcome<Exception>): TurnEnd {
    var reported := Emit(OutText(ProcessingError(e)), writable);
    if active then TurnEnd(true, running, reported)
    else
      var attempted := reported + [RecognizerStartRequested];
      match restart
      case Pass => TurnEnd(true, true, attempted)
      case Fail(_) => TurnEnd(false, running, attempted)
  }

  /**
   * The catch block reports the error on a writable socket and nothing else;
   * afterwards the flag is set when it was set or the restart succeeded, and the
   * recognizer runs when it ran or was restarted.
   */
  lemma CatchReports(active: bool, running: bool, writable: bool, e: Exception, restart: Outcome<Exception>)
    ensures var t := CatchBlock(active, running, writable, e, restart);
            && FramesOf(t.effects) == (if writable then [OutText(ProcessingError(e))] else [])
            && (t.active <==> active || restart.Pass?)
            && (t.running <==> running || (!active && restart.Pass?))
  {
    if !active {
      AppendQuiet(Emit(OutText(ProcessingError(e)), writable), RecognizerStartRequested);
    }
  }

  /** The catch block asks for a restart exactly when the flag says recognition is off. */
  lemma CatchRestarts(active: bool, running: bool, writable: bool, e: Exception, restart: Outcome<Exception>)
    ensures RecognizerStartRequested in CatchBlock(active, running, writable, e, restart).effects <==> !active
  {
    var reported := Emit(OutText(ProcessingError(e)), writable);
    assert RecognizerStartRequested !in reported;
    if !active {
      assert (reported + [RecognizerStartRequested])[|reported|] == RecognizerStartRequested;
    }
  }

  /** `t` preceded by the effects of the steps before it. */
  function After(prefix: seq<Effect>, t: TurnEnd): TurnEnd {
    t.(effects := prefix + t.effects)
  }

  /** The first step of a turn that threw; both revisions run them in this order. */
  datatype FailedAt =
    | AtCorrect(e: Exception)
    | AtStop(e: Exception)
    | AtAnswer(e: Exception)
    | AtStart(e: Exception)

  /** Which step of the turn on `userText` throws first, if any (synthesis problems are caught inside it). */
  function FirstFailure(userText: string, o: TurnOracles): Option<FailedAt> {
    match o.correct(userText)
    case Failure(e) => Some(AtCorrect(e))
    case Success(corrected) =>
      match o.stop
      case Fail(e) => Some(AtStop(e))
      case Pass =>
        match o.answer(corrected)
        case Failure(e) => Some(AtAnswer(e))
        case Success(_) =>
          match o.start
          case Fail(e) => Some(AtStart(e))
          case Pass => None
  }

  /** The recognizer had been stopped when the step failed. */
  predicate PausedBefore(f: FailedAt) {
    f.AtAnswer? || f.AtStart?
  }

  // ----------------------------------------------------------- recognizer

  /** The running state of the continuous speech recognizer. */
  class Recognizer {
    var running: bool
    var disposed: bool

    constructor ()
      ensures !running && !disposed
    {
      running, disposed := false, false;
    }

    /** `StartContinuousRecognitionAsync`, with the outcome the SDK gave. */
    method Start(outcome: Outcome<Exception>) returns (r: Outcome<Exception>)
      modifies this
      ensures r == outcome
      ensures running == (outcome.Pass? || old(running))
      ensures unchanged(this`disposed)
    {
      if outcome.Pass? {
        running := true;
      }
      r := outcome;
    }

    /** `StopContinuousRecognitionAsync`, with the outcome the SDK gave. */
    method Stop(outcome: Outcome<Exception>) returns (r: Outcome<Exception>)
      modifies this
      ensures r == outcome
      ensures running == (outcome.Fail? && old(running))
      ensures unchanged(this`disposed)
    {
      if outcome.Pass? {
        running := false;
      }
      r := outcome;
    }

    method Dispose()
      modifies this
      ensures disposed && unchanged(this`running)
    {
      disposed := true;
    }
  }

  /** What the recognizer reports through its events. */
  datatype ResultReason = RecognizingSpeech | RecognizedSpeech | NoMatch | OtherResult

  datatype RecognizerEvent =
    | Recognizing(reason: ResultReason, text: Option<string>)
    | Recognized(reason: ResultReason, text: Option<string>)
    | RecognitionCanceled(isError: bool)
    | SessionStarted
    | SessionStopped

  /** `Recognized` with reason RecognizedSpeech and a non-empty text is the only event that starts a turn. */
  predicate StartsTurn(ev: RecognizerEvent) {
    ev.Recognized? && ev.reason == RecognizedSpeech && !IsNullOrEmpty(ev.text)
  }

  // ------------------------------------------------------------ audio in

  /** `PushAudioInputStream` together with the handler's two audio counters. */
  class AudioIntake {
    /** The chunks written to the push stream, oldest first. */
    var pushed: seq<seq<byte>>
    var closed: bool
    /** `_audioChunksReceived` and `_totalBytesReceived`, 32-bit `int`s. */
    var chunksReceived: int32
    var bytesReceived: int32

    constructor ()
      ensures pushed == [] && !closed && chunksReceived == 0 && bytesReceived == 0
    {
      pushed, closed, chunksReceived, bytesReceived := [], false, 0, 0;
    }

    /** `HandleAudioChunkAsync`: forward the chunk unchanged and count it, with `int` wrap-around. */
    method Push(chunk: seq<byte>)
      requires !closed
      modifies this
      ensures pushed == old(pushed) + [chunk]
      ensures chunksReceived == Wrap32(old(chunksReceived) + 1)
      ensures bytesReceived == Wrap32(old(bytesReceived) + |chunk|)
      ensures unchanged(this`closed)
    {
      pushed := pushed + [chunk];
      chunksReceived := Wrap32(chunksReceived + 1);
      bytesReceived := Wrap32(bytesReceived + |chunk|);
    }

    method Close()
      modifies this
      ensures closed && unchanged(this`pushed, this`chunksReceived, this`bytesReceived)
    {
      closed := true;
    }
  }

  /** Adding in two wrapped steps is adding once and wrapping. */
  lemma Wrap32Add(a: int, x: int, y: int)
    ensures Wrap32(Wrap32(a + x) + y) == Wrap32(a + x + y)
  {
    var m := 0x1_0000_0000;
    var w := Wrap32(a + x);
    assert (a + x - w) % m == 0;
    var q := (a + x - w) / m;
    assert a + x + y - Int32Min == (w + y - Int32Min) + q * m;
  }

  // ---------------------------------------------------------- text frames

  /** What `HandleTextMessageAsync` does with a text frame. */
  datatype TextOutcome =
    | Ignored
    | EndRequested
    /** The exception escapes: only JsonException is caught. */
    | Escaped(e: Exception)

  /** `JsonValueKind` as `System.Text.Json` names it in messages. */
  function KindName(v: JsonValue): string {
    match v
    case JNull => "Null"
    case JBool(b) => if b then "True" else "False"
    case JNumber(_) => "Number"
    case JString(_) => "String"
    case JArray(_) => "Array"
    case JObject(_) => "Object"
  }

  function WrongKind(expected: string, v: JsonValue): Exception {
    SystemError("InvalidOperationException", "The requested operation requires an element of type '" + expected
                     + "', but the target element has type '" + KindName(v) + "'.")
  }

  /**
   * `message.TryGetProperty("type", out var type) && type.GetString() == "endSession"`
   * after a successful parse. Unparseable text is ignored. `TryGetProperty` on a
   * value that is not an object, and `GetString` on a `type` that is neither a
   * string nor null, throw InvalidOperationException, which the handler does not catch.
   */
  function ClassifyText(p: TextPayload): (r: TextOutcome)
    ensures p.Malformed? ==> r == Ignored
    ensures r == EndRequested <==>
              p.Parsed? && p.value.JObject? && TypeKey in p.value.fields
              && p.value.fields[TypeKey] == JString(EndSessionType)
    ensures r.Escaped? <==>
              p.Parsed? && (!p.value.JObject? ||
                            (TypeKey in p.value.fields && !p.value.fields[TypeKey].JString?
                             && !p.value.fields[TypeKey].JNull?))
    ensures r.Escaped? ==> IsA(r.e, "InvalidOperationException")
  {
    match p
    case Malformed => Ignored
    case Parsed(v) =>
      if !v.JObject? then Escaped(WrongKind("Object", v))
      else if TypeKey !in v.fields then Ignored
      else match v.fields[TypeKey]
        case JString(s) => if s == EndSessionType then EndRequested else Ignored
        case JNull => Ignored
        case other => Escaped(WrongKind("String", other))
  }

  /** `HandleTextMessageAsync`: an `endSession` request closes the socket; nothing is sent. */
  method HandleTextMessage(socket: ServerSocket, payload: TextPayload) returns (r: TextOutcome)
    modifies socket
    ensures r == ClassifyText(payload)
    ensures r == EndRequested ==> socket.state == Closed && socket.closeDescription == Some("Session ended")
    ensures r != EndRequested ==> unchanged(socket`state, socket`closeDescription)
    ensures unchanged(socket`sent, socket`faulted)
  {
    r := ClassifyText(payload);
    if r == EndRequested {
      socket.Close("Session ended");
    }
  }

  // --------------------------------------------------------- receive loop

  /** Why the receive loop of `HandleSessionAsync` stopped. */
  datatype LoopEnd =
    | SocketNotOpen
    | ClientClosed
    | EndSessionReceived
    /** A text frame made the handler throw. */
    | HandlerThrew(e: Exception)
    /** The messages ran out: the peer went away without a close handshake. */
    | ConnectionLost

  /** How the loop ends on this frame, or None when it reads on. */
  function FrameEnd(f: InFrame): Option<LoopEnd> {
    match f
    case InClose => Some(ClientClosed)
    case InBinary(_) => None
    case InText(p) =>
      match ClassifyText(p)
      case EndRequested => Some(EndSessionReceived)
      case Escaped(e) => Some(HandlerThrew(e))
      case Ignored => None
  }

  /** A frame after which the loop reads no more. */
  predicate EndsLoop(f: InFrame) {
    FrameEnd(f).Some?
  }

  /** The index of the first frame from `i` on that ends the loop, or `|inbound|`. */
  function StopIndex(inbound: seq<InFrame>, i: nat): (k: nat)
    requires i <= |inbound|
    ensures i <= k <= |inbound|
    ensures forall j :: i <= j < k ==> !EndsLoop(inbound[j])
    ensures k < |inbound| ==> EndsLoop(inbound[k])
    decreases |inbound| - i
  {
    if i == |inbound| || EndsLoop(inbound[i]) then i else StopIndex(inbound, i + 1)
  }

  /** How the loop ends when frame `k` is the first that ends it. */
  function LoopEndAt(inbound: seq<InFrame>, k: nat): LoopEnd
    requires k <= |inbound|
  {
    if k == |inbound| then ConnectionLost else FrameEnd(inbound[k]).GetOr(ConnectionLost)
  }

  /** The binary payloads among `frames`, in order. */
  function Chunks(frames: seq<InFrame>): seq<seq<byte>> {
    if frames == [] then []
    else Chunks(frames[..|frames| - 1])
         + (if frames[|frames| - 1].InBinary? then [frames[|frames| - 1].chunk] else [])
  }

  /** The number of bytes in `chunks`. */
  function TotalBytes(chunks: seq<seq<byte>>): nat {
    if chunks == [] then 0 else TotalBytes(chunks[..|chunks| - 1]) + |chunks[|chunks| - 1]|
  }

  lemma {:induction false} TotalBytesAppend(a: seq<seq<byte>>, c: seq<byte>)
    ensures TotalBytes(a + [c]) == TotalBytes(a) + |c|
  {
    assert (a + [c])[..|a + [c]| - 1] == a;
  }

  lemma ChunksAppend(frames: seq<InFrame>, f: InFrame)
    ensures Chunks(frames + [f]) == Chunks(frames) + (if f.InBinary? then [f.chunk] else [])
  {
    assert (frames + [f])[..|frames + [f]| - 1] == frames;
  }

  /** Starting from the given contents and counters, `intake` has taken the binary frames among `frames`. */
  ghost predicate Took(intake: AudioIntake, pushed0: seq<seq<byte>>, chunks0: int, bytes0: int, frames: seq<InFrame>)
    reads intake`pushed, intake`chunksReceived, intake`bytesReceived
  {
    && intake.pushed == pushed0 + Chunks(frames)
    && intake.chunksReceived == Wrap32(chunks0 + |Chunks(frames)|)
    && intake.bytesReceived == Wrap32(bytes0 + TotalBytes(Chunks(frames)))
  }

  lemma TookOther(intake: AudioIntake, pushed0: seq<seq<byte>>, chunks0: int, bytes0: int, frames: seq<InFrame>, f: InFrame)
    requires Took(intake, pushed0, chunks0, bytes0, frames) && !f.InBinary?
    ensures Took(intake, pushed0, chunks0, bytes0, frames + [f])
  {
    ChunksAppend(frames, f);
    assert Chunks(frames + [f]) == Chunks(frames);
  }

  lemma TookPushed(pushed0: seq<seq<byte>>, frames: seq<InFrame>, chunk: seq<byte>)
    ensures pushed0 + Chunks(frames) + [chunk] == pushed0 + Chunks(frames + [InBinary(chunk)])
  {
    ChunksAppend(frames, InBinary(chunk));
  }

  lemma TookChunk(chunks0: int, frames: seq<InFrame>, chunk: seq<byte>)
    ensures Wrap32(Wrap32(chunks0 + |Chunks(frames)|) + 1) == Wrap32(chunks0 + |Chunks(frames + [InBinary(chunk)])|)
  {
    ChunksAppend(frames, InBinary(chunk));
    Wrap32Add(chunks0, |Chunks(frames)|, 1);
  }

  lemma TookBytes(bytes0: int, frames: seq<InFrame>, chunk: seq<byte>)
    ensures Wrap32(Wrap32(bytes0 + TotalBytes(Chunks(frames))) + |chunk|)
            == Wrap32(bytes0 + TotalBytes(Chunks(frames + [InBinary(chunk)])))
  {
    ChunksAppend(frames, InBinary(chunk));
    Wrap32Add(bytes0, TotalBytes(Chunks(frames)), |chunk|);
    TotalBytesAppend(Chunks(frames), chunk);
  }

  /** One binary frame of the receive loop: the chunk goes to the push stream and is counted. */
  method TakeBinary(intake: AudioIntake, ghost pushed0: seq<seq<byte>>, ghost chunks0: int, ghost bytes0: int,
                    ghost frames: seq<InFrame>, chunk: seq<byte>)
    requires !intake.closed && Took(intake, pushed0, chunks0, bytes0, frames)
    modifies intake
    ensures Took(intake, pushed0, chunks0, bytes0, frames + [InBinary(chunk)])
    ensures unchanged(intake`closed)
  {
    TookPushed(pushed0, frames, chunk);
    TookChunk(chunks0, frames, chunk);
    TookBytes(bytes0, frames, chunk);
    intake.Push(chunk);
  }

  /** The socket state once the loop has ended this way. */
  function StateAfter(end: LoopEnd, before: SocketState): SocketState {
    match end
    case ClientClosed => Closed
    case EndSessionReceived => Closed
    case ConnectionLost => Aborted
    case _ => before
  }

  /** The close description once the loop has ended this way. */
  function DescriptionAfter(end: LoopEnd, before: Option<string>): Option<string> {
    match end
    case ClientClosed => Some("Client closed")
    case EndSessionReceived => Some("Session ended")
    case _ => before
  }

  /**
   * One message of the receive loop of `HandleSessionAsync`, on an open socket:
   * a Close frame closes the socket, a binary frame goes to the push stream, a
   * text frame to `HandleTextMessage`.
   */
  method HandleFrame(socket: ServerSocket, intake: AudioIntake, frame: InFrame,
                     ghost pushed0: seq<seq<byte>>, ghost chunks0: int, ghost bytes0: int, ghost frames: seq<InFrame>)
    returns (stop: Option<LoopEnd>)
    requires socket.state == Open && !intake.closed && Took(intake, pushed0, chunks0, bytes0, frames)
    modifies socket, intake
    ensures stop == FrameEnd(frame)
    ensures stop.None? ==> Took(intake, pushed0, chunks0, bytes0, frames + [frame])
                           && socket.state == Open && socket.closeDescription == old(socket.closeDescription)
    ensures stop.Some? ==> Took(intake, pushed0, chunks0, bytes0, frames)
                           && socket.state == StateAfter(stop.value, Open)
                           && socket.closeDescription == DescriptionAfter(stop.value, old(socket.closeDescription))
    ensures unchanged(socket`sent, socket`faulted, intake`closed)
  {
    match frame {
      case InClose =>
        socket.Close("Client closed");
        stop := Some(ClientClosed);
      case InBinary(chunk) =>
        TakeBinary(intake, pushed0, chunks0, bytes0, frames, chunk);
        stop := None;
      case InText(payload) =>
        var outcome := HandleTextMessage(socket, payload);
        match outcome {
          case Escaped(e) => stop := Some(HandlerThrew(e));
          case EndRequested => stop := Some(EndSessionReceived);
          case Ignored =>
            TookOther(intake, pushed0, chunks0, bytes0, frames, frame);
            stop := None;
        }
    }
  }

  /**
   * The receive loop of `HandleSessionAsync` over the messages the client
   * sends, read while the socket is open. Running out of messages is the peer
   * going away: the socket is then aborted.
   */
  method ReceiveLoop(socket: ServerSocket, intake: AudioIntake, inbound: seq<InFrame>) returns (end: LoopEnd)
    requires !intake.closed
    modifies socket, intake
    ensures var k := if old(socket.state) == Open then StopIndex(inbound, 0) else 0;
            && end == (if old(socket.state) == Open then LoopEndAt(inbound, k) else SocketNotOpen)
            && Took(intake, old(intake.pushed), old(intake.chunksReceived), old(intake.bytesReceived), inbound[..k])
    ensures socket.state == StateAfter(end, old(socket.state))
    ensures socket.closeDescription == DescriptionAfter(end, old(socket.closeDescription))
    ensures unchanged(socket`sent, socket`faulted, intake`closed)
  {
    ghost var pushed0, chunks0, bytes0 := intake.pushed, intake.chunksReceived, intake.bytesReceived;
    assert inbound[..0] == [];
    assert Took(intake, pushed0, chunks0, bytes0, inbound[..0]);
    if socket.state != Open {
      return SocketNotOpen;
    }
    ghost var k := StopIndex(inbound, 0);
    var i := 0;
    while socket.state == Open
      invariant 0 <= i <= k
      invariant StopIndex(inbound, i) == k
      invariant Took(intake, pushed0, chunks0, bytes0, inbound[..i])
      invariant !intake.closed && socket.sent == old(socket.sent) && socket.faulted == old(socket.faulted)
      invariant socket.state == Open && socket.closeDescription == old(socket.closeDescription)
      decreases |inbound| - i
    {
      if i == |inbound| {
        socket.Abort();
        return ConnectionLost;
      }
      var frame := inbound[i];
      var stop := HandleFrame(socket, intake, frame, pushed0, chunks0, bytes0, inbound[..i]);
      if stop.Some? {
        return stop.value;
      }
      assert inbound[..i + 1] == inbound[..i] + [frame];
      i := i + 1;
    }
    assert false;
  }

  // ------------------------------------------------------------- session

  /** How `HandleSessionAsync` ended before its cleanup. */
  datatype SessionEnd =
    /** `StartContinuousRecognitionAsync` threw; the catch logs it. */
    | StartFailed(e: Exception)
    | LoopEnded(end: LoopEnd)

  /**
   * `CleanupAsync`: stop the recognizer, then dispose it and close the push
   * stream. A failed stop skips the rest, and the catch logs it.
   */
  method Cleanup(recognizer: Recognizer, intake: AudioIntake, stop: Outcome<Exception>)
    modifies recognizer, intake
    ensures recognizer.running == (stop.Fail? && old(recognizer.running))
    ensures recognizer.disposed == (old(recognizer.disposed) || stop.Pass?)
    ensures intake.closed == (old(intake.closed) || stop.Pass?)
    ensures unchanged(intake`pushed, intake`chunksReceived, intake`bytesReceived)
  {
    var r := recognizer.Stop(stop);
    if r.Pass? {
      recognizer.Dispose();
      intake.Close();
    }
  }

  /**
   * `HandleSessionAsync`: start recognition, run the receive loop, and clean up
   * however the session ended. An exception from the start or the loop is
   * caught and logged. `start` and `stop` are the recognizer's outcomes.
   */
  method RunSession(socket: ServerSocket, recognizer: Recognizer, intake: AudioIntake,
                    start: Outcome<Exception>, inbound: seq<InFrame>, stop: Outcome<Exception>)
    returns (ended: SessionEnd)
    requires !intake.closed
    modifies socket, recognizer, intake
    ensures start.Fail? ==> ended == StartFailed(start.error)
                            && unchanged(socket) && intake.pushed == old(intake.pushed)
    ensures start.Pass? ==>
              && ended.LoopEnded?
              && var k := if old(socket.state) == Open then StopIndex(inbound, 0) else 0;
              && ended.end == (if old(socket.state) == Open then LoopEndAt(inbound, k) else SocketNotOpen)
              && Took(intake, old(intake.pushed), old(intake.chunksReceived), old(intake.bytesReceived), inbound[..k])
              && socket.state == StateAfter(ended.end, old(socket.state))
              && socket.closeDescription == DescriptionAfter(ended.end, old(socket.closeDescription))
    ensures recognizer.running == (stop.Fail? && (start.Pass? || old(recognizer.running)))
    ensures recognizer.disposed == (old(recognizer.disposed) || stop.Pass?)
    ensures intake.closed == stop.Pass?
    ensures unchanged(socket`sent, socket`faulted)
  {
    var started := recognizer.Start(start);
    if started.Fail? {
      ended := StartFailed(started.error);
    } else {
      var end := ReceiveLoop(socket, intake, inbound);
      ended := LoopEnded(end);
    }
    Cleanup(recognizer, intake, stop);
  }
}
