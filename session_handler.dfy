/**
 * The voice-session handler of the later revision (Handlers/VoiceSessionHandler.cs):
 * one per WebSocket connection, it feeds the client's audio to the speech
 * recognizer, runs a turn for every final recognition result, and shows both
 * sides of the conversation to the client as transcripts.
 */
module SessionHandler {
  import opened Wrappers
  import opened Clr
  import opened SessionCommon
  import Turns

  class VoiceSessionHandler {
    const socket: ServerSocket
    const recognizer: Recognizer
    /** The push stream the recognizer reads, with the audio counters. */
    const intake: AudioIntake
    var lastRecognizedText: string
    var isRecognitionActive: bool
    /** Everything the turns did, in order. */
    ghost var effects: seq<Effect>

    constructor (socket: ServerSocket)
      ensures this.socket == socket && fresh(recognizer) && fresh(intake)
      ensures !recognizer.running && !recognizer.disposed
      ensures intake.pushed == [] && !intake.closed && intake.chunksReceived == 0 && intake.bytesReceived == 0
      ensures lastRecognizedText == "" && !isRecognitionActive && effects == []
    {
      this.socket := socket;
      recognizer := new Recognizer();
      intake := new AudioIntake();
      lastRecognizedText := "";
      isRecognitionActive := false;
      effects := [];
    }

    /** `HandleSessionAsync`. */
    method HandleSession(start: Outcome<Exception>, inbound: seq<InFrame>, stop: Outcome<Exception>)
      returns (ended: SessionEnd)
      requires !intake.closed
      modifies socket, recognizer, intake
      ensures start.Fail? ==> ended == StartFailed(start.error) && unchanged(socket) && intake.pushed == old(intake.pushed)
      ensures start.Pass? ==>
                && ended.LoopEnded?
                && var k := if old(socket.state) == Open then StopIndex(inbound, 0) else 0;
                && ended.end == (if old(socket.state) == Open then LoopEndAt(inbound, k) else SocketNotOpen)
                && Took(intake, old(intake.pushed), old(intake.chunksReceived), old(intake.bytesReceived), inbound[..k])
                && socket.state == StateAfter(ended.end, old(socket.state))
                && socket.closeDescription == DescriptionAfter(ended.end, old(socket.closeDescription))
      ensures recognizer.running == (stop.Fail? && (start.Pass? || old(recognizer.running)))
      ensures recognizer.disposed == (old(recognizer.disposed) || stop.Pass?)
      ensures intake.closed == stop.Pass?
      ensures unchanged(socket`sent, socket`faulted)
    {
      ended := RunSession(socket, recognizer, intake, start, inbound, stop);
    }

    /** The catch block of `ProcessRecognizedTextAsync`. */
    method RecoverFromError(e: Exception, restart: Outcome<Exception>) returns (ghost written: seq<Effect>)
      modifies this, socket, recognizer
      ensures var t := CatchBlock(old(isRecognitionActive), old(recognizer.running), old(socket.Writable()), e, restart);
              written == t.effects && isRecognitionActive == t.active && recognizer.running == t.running
      ensures socket.sent == old(socket.sent) + FramesOf(written)
      ensures unchanged(socket`state, socket`faulted, socket`closeDescription, recognizer`disposed)
      ensures unchanged(this`lastRecognizedText, this`effects)
    {
      ghost var t := CatchBlock(isRecognitionActive, recognizer.running, socket.Writable(), e, restart);
      written := SendMessage(socket, ProcessingError(e));
      if !isRecognitionActive {
        var r := recognizer.Start(restart);
        AppendQuiet(written, RecognizerStartRequested);
        written := written + [RecognizerStartRequested];
        if r.Pass? {
          isRecognitionActive := true;
        }
      }
      assert written == t.effects && isRecognitionActive == t.active && recognizer.running == t.running;
    }

    /** `ProcessRecognizedTextAsync`: one turn, as `Turns.Turn` describes it, with transcripts. */
    method ProcessRecognizedText(userText: string, o: TurnOracles)
      modifies this, socket, recognizer
      ensures var t := Turns.Turn(true, old(isRecognitionActive), old(recognizer.running), old(socket.Writable()), userText, o);
              && isRecognitionActive == t.active && recognizer.running == t.running
              && effects == old(effects) + t.effects
              && socket.sent == old(socket.sent) + FramesOf(t.effects)
      ensures unchanged(socket`state, socket`faulted, socket`closeDescription, recognizer`disposed)
      ensures unchanged(this`lastRecognizedText)
    {
      ghost var active, running, writable := isRecognitionActive, recognizer.running, socket.Writable();
      ghost var whole := Turns.Turn(true, active, running, writable, userText, o);
      ghost var s0 := socket.sent;
      ghost var prefix := ShowUserText(userText);
      var corrected := o.correct(userText);
      ghost var rest: TurnEnd;
      if corrected.Failure? {
        rest := CatchBlock(active, running, writable, corrected.error, o.restart);
        var w := RecoverFromError(corrected.error, o.restart);
        assert w == rest.effects;
      } else {
        rest := Turns.FromPause(true, active, running, writable, corrected.value, o);
        var w := PauseAndAnswer(corrected.value, o);
        assert w == rest.effects;
      }
      assert whole == After(prefix, rest);
      SentThen(s0, prefix, rest.effects);
      effects := effects + whole.effects;
    }

    /** The user's transcript, then the request for the corrected text. */
    method ShowUserText(userText: string) returns (ghost prefix: seq<Effect>)
      modifies socket
      ensures prefix == Turns.Transcript(true, old(socket.Writable()), userText, UserRole) + [CorrectionRequested(userText)]
      ensures socket.sent == old(socket.sent) + FramesOf(prefix)
      ensures unchanged(socket`state, socket`faulted, socket`closeDescription)
    {
      ghost var shown := SendMessage(socket, TranscriptMsg(userText, UserRole));
      AppendQuiet(shown, CorrectionRequested(userText));
      prefix := shown + [CorrectionRequested(userText)];
    }

    /** The turn from pausing recognition on (`Turns.FromPause`). */
    method PauseAndAnswer(corrected: string, o: TurnOracles) returns (ghost written: seq<Effect>)
      modifies this, socket, recognizer
      ensures var t := Turns.FromPause(true, old(isRecognitionActive), old(recognizer.running), old(socket.Writable()), corrected, o);
              && isRecognitionActive == t.active && recognizer.running == t.running
              && written == t.effects
              && socket.sent == old(socket.sent) + FramesOf(written)
      ensures unchanged(socket`state, socket`faulted, socket`closeDescription, recognizer`disposed)
      ensures unchanged(this`lastRecognizedText, this`effects)
    {
      ghost var active, running, writable := isRecognitionActive, recognizer.running, socket.Writable();
      ghost var whole := Turns.FromPause(true, active, running, writable, corrected, o);
      var stopped := recognizer.Stop(o.stop);
      ghost var rest: TurnEnd;
      if stopped.Fail? {
        rest := CatchBlock(active, running, writable, stopped.error, o.restart);
        var w := RecoverFromError(stopped.error, o.restart);
        assert w == rest.effects;
      } else {
        isRecognitionActive := false;
        rest := Turns.FromAnswer(true, writable, corrected, o);
        var w := Answer(corrected, o);
        assert w == rest.effects;
      }
      assert whole == After([RecognizerStopRequested], rest);
      QuietThen(RecognizerStopRequested, rest.effects);
      written := whole.effects;
    }

    /** The turn from asking for the answer on (`Turns.FromAnswer`). */
    method Answer(corrected: string, o: TurnOracles) returns (ghost written: seq<Effect>)
      requires !isRecognitionActive && !recognizer.running
      modifies this, socket, recognizer
      ensures var t := Turns.FromAnswer(true, old(socket.Writable()), corrected, o);
              && isRecognitionActive == t.active && recognizer.running == t.running
              && written == t.effects
              && socket.sent == old(socket.sent) + FramesOf(written)
      ensures unchanged(socket`state, socket`faulted, socket`closeDescription, recognizer`disposed)
      ensures unchanged(this`lastRecognizedText, this`effects)
    {
      ghost var writable := socket.Writable();
      ghost var whole := Turns.FromAnswer(true, writable, corrected, o);
      var answer := o.answer(corrected);
      ghost var rest: TurnEnd;
      if answer.Failure? {
        rest := CatchBlock(false, false, writable, answer.error, o.restart);
        var w := RecoverFromError(answer.error, o.restart);
        assert w == rest.effects;
      } else {
        rest := Turns.FromReply(true, writable, answer.value, o);
        var w := ReplyAndResume(answer.value, o);
        assert w == rest.effects;
      }
      assert whole == After([AnswerRequested(corrected)], rest);
      QuietThen(AnswerRequested(corrected), rest.effects);
      written := whole.effects;
    }

    /** The turn from showing the answer on (`Turns.FromReply`). */
    method ReplyAndResume(answer: string, o: TurnOracles) returns (ghost written: seq<Effect>)
      requires !isRecognitionActive && !recognizer.running
      modifies this, socket, recognizer
      ensures var t := Turns.FromReply(true, old(socket.Writable()), answer, o);
              && isRecognitionActive == t.active && recognizer.running == t.running
              && written == t.effects
              && socket.sent == old(socket.sent) + FramesOf(written)
      ensures unchanged(socket`state, socket`faulted, socket`closeDescription, recognizer`disposed)
      ensures unchanged(this`lastRecognizedText, this`effects)
    {
      ghost var writable := socket.Writable();
      ghost var whole := Turns.FromReply(true, writable, answer, o);
      ghost var s0 := socket.sent;
      ghost var reply := SpeakReply(answer, o);
      ghost var prefix := reply + [RecognizerStartRequested];
      AppendQuiet(reply, RecognizerStartRequested);
      var started := recognizer.Start(o.start);
      ghost var rest: TurnEnd;
      if started.Fail? {
        rest := CatchBlock(false, false, writable, started.error, o.restart);
        var w := RecoverFromError(started.error, o.restart);
        assert w == rest.effects;
      } else {
        isRecognitionActive := true;
        var w := SendMessage(socket, StatusMsg(ListeningStatus));
        rest := TurnEnd(true, true, w);
      }
      assert whole == After(prefix, rest);
      SentThen(s0, prefix, rest.effects);
      written := whole.effects;
    }

    /** The assistant transcript, the speaking status and the speech (`Turns.Reply`). */
    method SpeakReply(answer: string, o: TurnOracles) returns (ghost written: seq<Effect>)
      modifies socket
      ensures written == Turns.Reply(true, old(socket.Writable()), answer, o)
      ensures socket.sent == old(socket.sent) + FramesOf(written)
      ensures unchanged(socket`state, socket`faulted, socket`closeDescription)
    {
      ghost var s0 := socket.sent;
      ghost var w1 := SendMessage(socket, TranscriptMsg(answer, AssistantRole));
      ghost var w2 := SendMessage(socket, StatusMsg(SpeakingStatus));
      SentThen(s0, w1, w2);
      ghost var w3 := SpeakAndSend(socket, answer, o.synthesize);
      SentThen(s0, w1 + w2, w3);
      written := w1 + w2 + w3;
    }

    /**
     * The recognizer's events: a final result with text is remembered and
     * starts a turn on it; every other event only logs.
     */
    method OnRecognizerEvent(ev: RecognizerEvent, o: TurnOracles)
      modifies this, socket, recognizer
      ensures StartsTurn(ev) ==>
                var t := Turns.Turn(true, old(isRecognitionActive), old(recognizer.running), old(socket.Writable()), ev.text.value, o);
                && lastRecognizedText == ev.text.value
                && isRecognitionActive == t.active && recognizer.running == t.running
                && effects == old(effects) + t.effects
                && socket.sent == old(socket.sent) + FramesOf(t.effects)
      ensures !StartsTurn(ev) ==> unchanged(this, socket, recognizer)
      ensures unchanged(socket`state, socket`faulted, socket`closeDescription, recognizer`disposed)
    {
      if StartsTurn(ev) {
        lastRecognizedText := ev.text.value;
        ProcessRecognizedText(ev.text.value, o);
      }
    }
  }
}
