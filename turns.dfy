/**
 * One conversational turn of the voice session (`ProcessRecognizedTextAsync`),
 * as a function of the state it starts from. Both revisions of the handler
 * run the same steps (correct the recognized text, pause recognition, get the
 * answer, speak it, resume recognition) and share the catch block; the later
 * revision (Handlers/VoiceSessionHandler.cs) also shows both sides of the
 * conversation as transcripts, the earlier one (VoiceSessionHandler.cs) does not.
 */
module Turns {
  import opened Wrappers
  import opened Clr
  import opened SessionCommon

  /** A transcript frame, in the revision that sends them. */
  function Transcript(transcripts: bool, writable: bool, text: string, role: string): seq<Effect> {
    if transcripts then Emit(OutText(TranscriptMsg(text, role)), writable) else []
  }

  /**
   * The turn on `userText`, started with the flag `active` and the recognizer
   * `running`, on a socket that is `writable` or not throughout the turn.
   */
  function Turn(transcripts: bool, active: bool, running: bool, writable: bool, userText: string, o: TurnOracles): TurnEnd {
    After(Transcript(transcripts, writable, userText, UserRole) + [CorrectionRequested(userText)],
          match o.correct(userText)
          case Failure(e) => CatchBlock(active, running, writable, e, o.restart)
          case Success(corrected) => FromPause(transcripts, active, running, writable, corrected, o))
  }

  /** The turn from pausing recognition on. */
  function FromPause(transcripts: bool, active: bool, running: bool, writable: bool, corrected: string, o: TurnOracles): TurnEnd {
    After([RecognizerStopRequested],
          match o.stop
          case Fail(e) => CatchBlock(active, running, writable, e, o.restart)
          case Pass => FromAnswer(transcripts, writable, corrected, o))
  }

  /** The turn from asking for the answer on; recognition is off and the flag false. */
  function FromAnswer(transcripts: bool, writable: bool, corrected: string, o: TurnOracles): TurnEnd {
    After([AnswerRequested(corrected)],
          match o.answer(corrected)
          case Failure(e) => CatchBlock(false, false, writable, e, o.restart)
          case Success(answer) => FromReply(transcripts, writable, answer, o))
  }

  /** The frames that deliver the answer, before recognition resumes. */
  function Reply(transcripts: bool, writable: bool, answer: string, o: TurnOracles): seq<Effect> {
    Transcript(transcripts, writable, answer, AssistantRole)
    + Emit(OutText(StatusMsg(SpeakingStatus)), writable)
    + SpeakEffects(answer, o.synthesize(answer), writable)
  }

  /** The turn from delivering the answer on. */
  function FromReply(transcripts: bool, writable: bool, answer: string, o: TurnOracles): TurnEnd {
    After(Reply(transcripts, writable, answer, o) + [RecognizerStartRequested],
          match o.start
          case Fail(e) => CatchBlock(false, false, writable, e, o.restart)
          case Pass => TurnEnd(true, true, Emit(OutText(StatusMsg(ListeningStatus)), writable)))
  }

  // --------------------------------------------------------- frame algebra

  lemma AfterFrames(prefix: seq<Effect>, t: TurnEnd)
    ensures FramesOf(After(prefix, t).effects) == FramesOf(prefix) + FramesOf(t.effects)
  {
    FramesOfAppend(prefix, t.effects);
  }

  lemma AfterAfter(p: seq<Effect>, q: seq<Effect>, t: TurnEnd)
    ensures After(p + q, t) == After(p, After(q, t))
  {
    assert (p + q) + t.effects == p + (q + t.effects);
  }

  lemma ConsPair<T>(u: T, v: T, rest: seq<T>)
    ensures [u] + ([v] + rest) == [u, v] + rest
  {
  }

  lemma NilNil<T>(rest: seq<T>)
    ensures [] + ([] + rest) == [] + rest
  {
  }

  lemma SilentStep(e: Effect)
    requires !e.Wrote?
    ensures FramesOf([e]) == []
  {
    assert [e][..0] == [];
  }

  lemma TranscriptFrames(transcripts: bool, writable: bool, text: string, role: string)
    ensures FramesOf(Transcript(transcripts, writable, text, role)) ==
              if transcripts && writable then [OutText(TranscriptMsg(text, role))] else []
  {
  }

  lemma ReplyFrames(transcripts: bool, writable: bool, answer: string, o: TurnOracles)
    ensures FramesOf(Reply(transcripts, writable, answer, o) + [RecognizerStartRequested]) ==
              (if transcripts && writable then [OutText(TranscriptMsg(answer, AssistantRole))] else [])
              + (if writable then [OutText(StatusMsg(SpeakingStatus))] else [])
              + FramesOf(SpeakEffects(answer, o.synthesize(answer), writable))
  {
    var a := Transcript(transcripts, writable, answer, AssistantRole);
    var b := Emit(OutText(StatusMsg(SpeakingStatus)), writable);
    var c := SpeakEffects(answer, o.synthesize(answer), writable);
    FramesOfAppend(a, b);
    FramesOfAppend(a + b, c);
    FramesOfAppend(a + b + c, [RecognizerStartRequested]);
    SilentStep(RecognizerStartRequested);
    TranscriptFrames(transcripts, writable, answer, AssistantRole);
  }

  lemma NotInAppend<T>(x: T, a: seq<T>, b: seq<T>)
    requires x !in a && x !in b
    ensures x !in a + b
  {
  }

  lemma InAppendRight<T>(x: T, a: seq<T>, b: seq<T>)
    requires x in b
    ensures x in a + b
  {
    var i :| 0 <= i < |b| && b[i] == x;
    assert (a + b)[|a| + i] == x;
  }

  /** Delivering the answer never says listening. */
  lemma ReplyNotListening(transcripts: bool, writable: bool, answer: string, o: TurnOracles)
    ensures OutText(StatusMsg(ListeningStatus)) !in FramesOf(Reply(transcripts, writable, answer, o) + [RecognizerStartRequested])
  {
    ReplyFrames(transcripts, writable, answer, o);
    SpeakFrames(answer, o.synthesize(answer), writable);
    var listening := OutText(StatusMsg(ListeningStatus));
    var a: seq<OutFrame> := if transcripts && writable then [OutText(TranscriptMsg(answer, AssistantRole))] else [];
    var b: seq<OutFrame> := if writable then [OutText(StatusMsg(SpeakingStatus))] else [];
    var c := FramesOf(SpeakEffects(answer, o.synthesize(answer), writable));
    assert listening !in b by {
      assert SpeakingStatus != ListeningStatus by {
        assert |SpeakingStatus| != |ListeningStatus|;
      }
    }
    NotInAppend(listening, a, b);
    NotInAppend(listening, a + b, c);
  }

  // ------------------------------------------------------------ a good turn

  /** A turn whose every step works ends with recognition on and the listening status. */
  lemma FromReplySucceeds(transcripts: bool, answer: string, o: TurnOracles)
    requires o.start.Pass?
    ensures var t := FromReply(transcripts, true, answer, o);
            && t.active && t.running
            && FramesOf(t.effects) ==
                 (if transcripts then [OutText(TranscriptMsg(answer, AssistantRole))] else [])
                 + [OutText(StatusMsg(SpeakingStatus))]
                 + FramesOf(SpeakEffects(answer, o.synthesize(answer), true))
                 + [OutText(StatusMsg(ListeningStatus))]
  {
    ReplyFrames(transcripts, true, answer, o);
    AfterFrames(Reply(transcripts, true, answer, o) + [RecognizerStartRequested],
                TurnEnd(true, true, Emit(OutText(StatusMsg(ListeningStatus)), true)));
  }

  /** One request step in front of `t` changes neither its frames nor its outcome. */
  lemma SilentAfter(e: Effect, t: TurnEnd)
    requires !e.Wrote?
    ensures FramesOf(After([e], t).effects) == FramesOf(t.effects)
    ensures After([e], t).active == t.active && After([e], t).running == t.running
  {
    AfterFrames([e], t);
    SilentStep(e);
  }

  /** A turn in which nothing throws: the user's transcript, three requests, then the reply. */
  lemma SucceedingTurn(transcripts: bool, active: bool, running: bool, writable: bool, userText: string, o: TurnOracles)
    requires FirstFailure(userText, o) == None
    ensures var corrected := o.correct(userText).value;
            var answer := o.answer(corrected).value;
            Turn(transcripts, active, running, writable, userText, o)
            == After(Transcript(transcripts, writable, userText, UserRole),
                     After([CorrectionRequested(userText), RecognizerStopRequested, AnswerRequested(corrected)],
                           FromReply(transcripts, writable, answer, o)))
  {
    var corrected := o.correct(userText).value;
    var answer := o.answer(corrected).value;
    var user := Transcript(transcripts, writable, userText, UserRole);
    var fromReply := FromReply(transcripts, writable, answer, o);
    AfterAfter(user, [CorrectionRequested(userText)], FromPause(transcripts, active, running, writable, corrected, o));
    AfterAfter([CorrectionRequested(userText)], [RecognizerStopRequested], FromAnswer(transcripts, writable, corrected, o));
    AfterAfter([CorrectionRequested(userText)] + [RecognizerStopRequested], [AnswerRequested(corrected)], fromReply);
    assert [CorrectionRequested(userText)] + [RecognizerStopRequested] + [AnswerRequested(corrected)]
        == [CorrectionRequested(userText), RecognizerStopRequested, AnswerRequested(corrected)];
  }

  lemma SilentRequests(a: Effect, b: Effect, c: Effect, t: TurnEnd)
    requires !a.Wrote? && !b.Wrote? && !c.Wrote?
    ensures FramesOf(After([a, b, c], t).effects) == FramesOf(t.effects)
    ensures After([a, b, c], t).active == t.active && After([a, b, c], t).running == t.running
  {
    AfterAfter([a, b], [c], t);
    AfterAfter([a], [b], After([c], t));
    assert [a, b] == [a] + [b] && [a, b, c] == [a, b] + [c];
    SilentAfter(c, t);
    SilentAfter(b, After([c], t));
    SilentAfter(a, After([b], After([c], t)));
  }

  /**
   * A turn in which nothing throws shows the user's words (later revision),
   * the answer (later revision), the speaking status, the synthesis and the
   * listening status, in that order, and leaves recognition on.
   */
  lemma TurnSucceeds(transcripts: bool, active: bool, running: bool, userText: string, o: TurnOracles)
    requires FirstFailure(userText, o) == None
    ensures var t := Turn(transcripts, active, running, true, userText, o);
            var answer := o.answer(o.correct(userText).value).value;
            && t.active && t.running
            && FramesOf(t.effects) ==
                 (if transcripts then [OutText(TranscriptMsg(userText, UserRole)),
                                       OutText(TranscriptMsg(answer, AssistantRole))] else [])
                 + [OutText(StatusMsg(SpeakingStatus))]
                 + FramesOf(SpeakEffects(answer, o.synthesize(answer), true))
                 + [OutText(StatusMsg(ListeningStatus))]
  {
    var corrected := o.correct(userText).value;
    var answer := o.answer(corrected).value;
    var fromReply := FromReply(transcripts, true, answer, o);
    var user := Transcript(transcripts, true, userText, UserRole);
    var rest := [OutText(StatusMsg(SpeakingStatus))]
                + FramesOf(SpeakEffects(answer, o.synthesize(answer), true))
                + [OutText(StatusMsg(ListeningStatus))];
    FromReplySucceeds(transcripts, answer, o);
    SucceedingTurn(transcripts, active, running, true, userText, o);
    var requested := After([CorrectionRequested(userText), RecognizerStopRequested, AnswerRequested(corrected)], fromReply);
    SilentRequests(CorrectionRequested(userText), RecognizerStopRequested, AnswerRequested(corrected), fromReply);
    AfterFrames(user, requested);
    TranscriptFrames(transcripts, true, userText, UserRole);
    if transcripts {
      ConsPair(OutText(TranscriptMsg(userText, UserRole)), OutText(TranscriptMsg(answer, AssistantRole)), rest);
    } else {
      NilNil(rest);
    }
  }

  // ------------------------------------------------------------ a bad turn

  /** `t` ends by reporting `e` (on a writable socket) and never says listening. */
  ghost predicate FailsWith(t: TurnEnd, writable: bool, e: Exception) {
    var frames := FramesOf(t.effects);
    && (writable ==> |frames| > 0 && frames[|frames| - 1] == OutText(ProcessingError(e)))
    && OutText(StatusMsg(ListeningStatus)) !in frames
  }

  lemma AfterFails(prefix: seq<Effect>, t: TurnEnd, writable: bool, e: Exception)
    requires FailsWith(t, writable, e) && OutText(StatusMsg(ListeningStatus)) !in FramesOf(prefix)
    ensures FailsWith(After(prefix, t), writable, e)
  {
    AfterFrames(prefix, t);
  }

  lemma CatchFails(active: bool, running: bool, writable: bool, e: Exception, restart: Outcome<Exception>)
    ensures FailsWith(CatchBlock(active, running, writable, e, restart), writable, e)
  {
    CatchReports(active, running, writable, e, restart);
  }

  lemma FromReplyFails(transcripts: bool, writable: bool, answer: string, o: TurnOracles)
    requires o.start.Fail?
    ensures FailsWith(FromReply(transcripts, writable, answer, o), writable, o.start.error)
  {
    ReplyNotListening(transcripts, writable, answer, o);
    CatchFails(false, false, writable, o.start.error, o.restart);
    AfterFails(Reply(transcripts, writable, answer, o) + [RecognizerStartRequested],
               CatchBlock(false, false, writable, o.start.error, o.restart), writable, o.start.error);
  }

  lemma FromAnswerFails(transcripts: bool, writable: bool, corrected: string, o: TurnOracles, f: FailedAt)
    requires o.answer(corrected).Failure? ==> f == AtAnswer(o.answer(corrected).error)
    requires o.answer(corrected).Success? ==> o.start.Fail? && f == AtStart(o.start.error)
    ensures FailsWith(FromAnswer(transcripts, writable, corrected, o), writable, f.e)
  {
    SilentStep(AnswerRequested(corrected));
    match o.answer(corrected) {
      case Failure(e) =>
        CatchFails(false, false, writable, e, o.restart);
        AfterFails([AnswerRequested(corrected)], CatchBlock(false, false, writable, e, o.restart), writable, e);
      case Success(answer) =>
        FromReplyFails(transcripts, writable, answer, o);
        AfterFails([AnswerRequested(corrected)], FromReply(transcripts, writable, answer, o), writable, f.e);
    }
  }

  lemma FromPauseFails(transcripts: bool, active: bool, running: bool, writable: bool, corrected: string,
                       o: TurnOracles, f: FailedAt)
    requires o.stop.Fail? ==> f == AtStop(o.stop.error)
    requires o.stop.Pass? && o.answer(corrected).Failure? ==> f == AtAnswer(o.answer(corrected).error)
    requires o.stop.Pass? && o.answer(corrected).Success? ==> o.start.Fail? && f == AtStart(o.start.error)
    ensures FailsWith(FromPause(transcripts, active, running, writable, corrected, o), writable, f.e)
  {
    SilentStep(RecognizerStopRequested);
    match o.stop {
      case Fail(e) =>
        CatchFails(active, running, writable, e, o.restart);
        AfterFails([RecognizerStopRequested], CatchBlock(active, running, writable, e, o.restart), writable, e);
      case Pass =>
        FromAnswerFails(transcripts, writable, corrected, o, f);
        AfterFails([RecognizerStopRequested], FromAnswer(transcripts, writable, corrected, o), writable, f.e);
    }
  }

  lemma ShownNotListening(transcripts: bool, writable: bool, userText: string)
    ensures OutText(StatusMsg(ListeningStatus)) !in
              FramesOf(Transcript(transcripts, writable, userText, UserRole) + [CorrectionRequested(userText)])
  {
    FramesOfAppend(Transcript(transcripts, writable, userText, UserRole), [CorrectionRequested(userText)]);
    SilentStep(CorrectionRequested(userText));
    TranscriptFrames(transcripts, writable, userText, UserRole);
  }

  /** When a step throws, the turn ends with the processing error and never reports listening. */
  lemma TurnFails(transcripts: bool, active: bool, running: bool, writable: bool, userText: string, o: TurnOracles)
    requires FirstFailure(userText, o).Some?
    ensures var f := FirstFailure(userText, o).value;
            var t := Turn(transcripts, active, running, writable, userText, o);
            && FailsWith(t, writable, f.e)
            && (t.active <==> o.restart.Pass? || (active && !PausedBefore(f)))
  {
    TurnFailsReporting(transcripts, active, running, writable, userText, o);
    TurnFailsFlag(transcripts, active, running, writable, userText, o);
  }

  lemma TurnFailsReporting(transcripts: bool, active: bool, running: bool, writable: bool, userText: string, o: TurnOracles)
    requires FirstFailure(userText, o).Some?
    ensures FailsWith(Turn(transcripts, active, running, writable, userText, o), writable, FirstFailure(userText, o).value.e)
  {
    var f := FirstFailure(userText, o).value;
    var shown := Transcript(transcripts, writable, userText, UserRole) + [CorrectionRequested(userText)];
    ShownNotListening(transcripts, writable, userText);
    match o.correct(userText) {
      case Failure(e) =>
        CatchFails(active, running, writable, e, o.restart);
        AfterFails(shown, CatchBlock(active, running, writable, e, o.restart), writable, e);
      case Success(corrected) =>
        FromPauseFails(transcripts, active, running, writable, corrected, o, f);
        AfterFails(shown, FromPause(transcripts, active, running, writable, corrected, o), writable, f.e);
    }
  }

  /** After a failure the flag is what the catch block left it. */
  lemma TurnFailsFlag(transcripts: bool, active: bool, running: bool, writable: bool, userText: string, o: TurnOracles)
    requires FirstFailure(userText, o).Some?
    ensures var t := Turn(transcripts, active, running, writable, userText, o);
            t.active <==> o.restart.Pass? || (active && !PausedBefore(FirstFailure(userText, o).value))
  {
    match o.correct(userText) {
      case Failure(e) => CatchReports(active, running, writable, e, o.restart);
      case Success(corrected) =>
        if o.stop.Fail? {
          CatchReports(active, running, writable, o.stop.error, o.restart);
        } else if o.answer(corrected).Failure? {
          CatchReports(false, false, writable, o.answer(corrected).error, o.restart);
        } else {
          CatchReports(false, false, writable, o.start.error, o.restart);
        }
    }
  }

  // ---------------------------------------------------------- other facts

  /** Without a writable socket a turn sends nothing. */
  lemma TurnSilentWhenClosed(transcripts: bool, active: bool, running: bool, userText: string, o: TurnOracles)
    ensures FramesOf(Turn(transcripts, active, running, false, userText, o).effects) == []
  {
    var shown := Transcript(transcripts, false, userText, UserRole) + [CorrectionRequested(userText)];
    FramesOfAppend(Transcript(transcripts, false, userText, UserRole), [CorrectionRequested(userText)]);
    SilentStep(CorrectionRequested(userText));
    match o.correct(userText) {
      case Failure(e) =>
        CatchReports(active, running, false, e, o.restart);
        AfterFrames(shown, CatchBlock(active, running, false, e, o.restart));
      case Success(corrected) =>
        SilentStep(RecognizerStopRequested);
        SilentStep(AnswerRequested(corrected));
        var fromAnswer := FromAnswer(transcripts, false, corrected, o);
        match o.answer(corrected) {
          case Failure(e) =>
            CatchReports(false, false, false, e, o.restart);
            AfterFrames([AnswerRequested(corrected)], CatchBlock(false, false, false, e, o.restart));
          case Success(answer) =>
            ReplyFrames(transcripts, false, answer, o);
            SpeakFrames(answer, o.synthesize(answer), false);
            if o.start.Fail? {
              CatchReports(false, false, false, o.start.error, o.restart);
            }
            var rest := match o.start
              case Fail(e) => CatchBlock(false, false, false, e, o.restart)
              case Pass => TurnEnd(true, true, Emit(OutText(StatusMsg(ListeningStatus)), false));
            AfterFrames(Reply(transcripts, false, answer, o) + [RecognizerStartRequested], rest);
            AfterFrames([AnswerRequested(corrected)], FromReply(transcripts, false, answer, o));
        }
        if o.stop.Fail? {
          CatchReports(active, running, false, o.stop.error, o.restart);
        }
        var rest := match o.stop
          case Fail(e) => CatchBlock(active, running, false, e, o.restart)
          case Pass => fromAnswer;
        AfterFrames([RecognizerStopRequested], rest);
        AfterFrames(shown, FromPause(transcripts, active, running, false, corrected, o));
    }
  }

  /** Once the flag implies a running recognizer, every turn keeps it so. */
  lemma TurnKeepsFlagHonest(transcripts: bool, active: bool, running: bool, writable: bool, userText: string, o: TurnOracles)
    requires active ==> running
    ensures var t := Turn(transcripts, active, running, writable, userText, o);
            t.active ==> t.running
  {
    match o.correct(userText) {
      case Failure(e) => CatchReports(active, running, writable, e, o.restart);
      case Success(corrected) =>
        if o.stop.Fail? {
          CatchReports(active, running, writable, o.stop.error, o.restart);
        } else if o.answer(corrected).Failure? {
          CatchReports(false, false, writable, o.answer(corrected).error, o.restart);
        } else if o.start.Fail? {
          CatchReports(false, false, writable, o.start.error, o.restart);
        }
    }
  }

  /** In the later revision, on a writable socket, a turn first shows the user's words. */
  lemma TranscriptFirst(active: bool, running: bool, userText: string, o: TurnOracles)
    ensures var t := Turn(true, active, running, true, userText, o);
            |t.effects| > 0 && t.effects[0] == Wrote(OutText(TranscriptMsg(userText, UserRole)))
  {
  }

  /**
   * The flag starts false although `HandleSessionAsync` starts the recognizer,
   * so a first turn whose correction throws starts the running recognizer again.
   */
  lemma FirstTurnRestartsRunningRecognizer(transcripts: bool, writable: bool, userText: string, o: TurnOracles)
    requires o.correct(userText).Failure?
    ensures RecognizerStartRequested in Turn(transcripts, false, true, writable, userText, o).effects
  {
    var e := o.correct(userText).error;
    CatchRestarts(false, true, writable, e, o.restart);
    var prefix := Transcript(transcripts, writable, userText, UserRole) + [CorrectionRequested(userText)];
    var t := CatchBlock(false, true, writable, e, o.restart);
    InAppendRight(RecognizerStartRequested, prefix, t.effects);
  }

  // ----------------------------------------------------- the two revisions

  /** Showing one side of the conversation to the client. */
  predicate IsTranscript(e: Effect) {
    e.Wrote? && e.frame.OutText? && e.frame.message.TranscriptMsg?
  }

  /** `effects` without the transcript frames. */
  function DropTranscripts(effects: seq<Effect>): seq<Effect> {
    if effects == [] then []
    else DropTranscripts(effects[..|effects| - 1])
         + (if IsTranscript(effects[|effects| - 1]) then [] else [effects[|effects| - 1]])
  }

  lemma {:induction false} DropTranscriptsAppend(a: seq<Effect>, b: seq<Effect>)
    ensures DropTranscripts(a + b) == DropTranscripts(a) + DropTranscripts(b)
    decreases |b|
  {
    if b == [] {
      assert a + b == a;
    } else {
      assert (a + b)[..|a + b| - 1] == a + b[..|b| - 1];
      DropTranscriptsAppend(a, b[..|b| - 1]);
    }
  }

  lemma DropOne(e: Effect)
    ensures DropTranscripts([e]) == if IsTranscript(e) then [] else [e]
  {
    assert [e][..0] == [];
  }

  lemma DropCatch(active: bool, running: bool, writable: bool, e: Exception, restart: Outcome<Exception>)
    ensures var c := CatchBlock(active, running, writable, e, restart);
            DropTranscripts(c.effects) == c.effects
  {
    var reported := Emit(OutText(ProcessingError(e)), writable);
    DropTranscripts0();
    if writable {
      DropOne(Wrote(OutText(ProcessingError(e))));
    }
    if !active {
      DropOne(RecognizerStartRequested);
      DropTranscriptsAppend(reported, [RecognizerStartRequested]);
    }
  }

  lemma DropTranscripts0()
    ensures DropTranscripts([]) == []
  {
  }

  lemma DropSpeak(answer: string, result: SynthesisResult, writable: bool)
    ensures DropTranscripts(SpeakEffects(answer, result, writable)) == SpeakEffects(answer, result, writable)
  {
    var tail := match result
      case Completed(audio) => Emit(OutBinary(audio), writable)
      case SynthesisCanceled(details) => Emit(OutText(ErrorMsg(TtsErrorPrefix + details)), writable)
      case SynthesisThrew(message) => Emit(OutText(ErrorMsg(TtsErrorPrefix + message)), writable)
      case OtherReason => [];
    DropOne(SynthesisRequested(answer));
    if tail != [] {
      DropOne(tail[0]);
    }
    DropTranscriptsAppend([SynthesisRequested(answer)], tail);
  }

  /** `u` is `t` with the transcripts left out. */
  ghost predicate Dropped(u: TurnEnd, t: TurnEnd) {
    u == t.(effects := DropTranscripts(t.effects))
  }

  lemma DropAfter(prefix: seq<Effect>, t: TurnEnd, u: TurnEnd)
    requires Dropped(u, t)
    ensures Dropped(After(DropTranscripts(prefix), u), After(prefix, t))
  {
    DropTranscriptsAppend(prefix, t.effects);
  }

  lemma DropReply(writable: bool, answer: string, o: TurnOracles)
    ensures DropTranscripts(Reply(true, writable, answer, o) + [RecognizerStartRequested])
            == Reply(false, writable, answer, o) + [RecognizerStartRequested]
  {
    var tr := Transcript(true, writable, answer, AssistantRole);
    var speaking := Emit(OutText(StatusMsg(SpeakingStatus)), writable);
    var speech := SpeakEffects(answer, o.synthesize(answer), writable);
    DropSpeak(answer, o.synthesize(answer), writable);
    DropTranscripts0();
    if writable {
      DropOne(Wrote(OutText(StatusMsg(SpeakingStatus))));
      DropOne(Wrote(OutText(TranscriptMsg(answer, AssistantRole))));
    }
    DropOne(RecognizerStartRequested);
    DropTranscriptsAppend(tr + speaking + speech, [RecognizerStartRequested]);
    DropTranscriptsAppend(tr + speaking, speech);
    DropTranscriptsAppend(tr, speaking);
  }

  lemma DropFromReply(writable: bool, answer: string, o: TurnOracles)
    ensures Dropped(FromReply(false, writable, answer, o), FromReply(true, writable, answer, o))
  {
    var tail := match o.start
      case Fail(e) => CatchBlock(false, false, writable, e, o.restart)
      case Pass => TurnEnd(true, true, Emit(OutText(StatusMsg(ListeningStatus)), writable));
    if o.start.Fail? {
      DropCatch(false, false, writable, o.start.error, o.restart);
    } else {
      DropTranscripts0();
      if writable {
        DropOne(Wrote(OutText(StatusMsg(ListeningStatus))));
      }
    }
    DropReply(writable, answer, o);
    DropAfter(Reply(true, writable, answer, o) + [RecognizerStartRequested], tail, tail);
  }

  lemma DropFromAnswer(writable: bool, corrected: string, o: TurnOracles)
    ensures Dropped(FromAnswer(false, writable, corrected, o), FromAnswer(true, writable, corrected, o))
  {
    DropOne(AnswerRequested(corrected));
    match o.answer(corrected) {
      case Failure(e) =>
        DropCatch(false, false, writable, e, o.restart);
        var c := CatchBlock(false, false, writable, e, o.restart);
        DropAfter([AnswerRequested(corrected)], c, c);
      case Success(answer) =>
        DropFromReply(writable, answer, o);
        DropAfter([AnswerRequested(corrected)], FromReply(true, writable, answer, o), FromReply(false, writable, answer, o));
    }
  }

  lemma DropFromPause(active: bool, running: bool, writable: bool, corrected: string, o: TurnOracles)
    ensures Dropped(FromPause(false, active, running, writable, corrected, o), FromPause(true, active, running, writable, corrected, o))
  {
    DropOne(RecognizerStopRequested);
    match o.stop {
      case Fail(e) =>
        DropCatch(active, running, writable, e, o.restart);
        var c := CatchBlock(active, running, writable, e, o.restart);
        DropAfter([RecognizerStopRequested], c, c);
      case Pass =>
        DropFromAnswer(writable, corrected, o);
        DropAfter([RecognizerStopRequested], FromAnswer(true, writable, corrected, o), FromAnswer(false, writable, corrected, o));
    }
  }

  /**
   * The earlier revision does exactly what the later one does, minus the
   * transcripts: the same requests in the same order, the same other frames,
   * the same flag and recognizer state.
   */
  lemma RevisionsDifferInTranscriptsOnly(active: bool, running: bool, writable: bool, userText: string, o: TurnOracles)
    ensures var later := Turn(true, active, running, writable, userText, o);
            Turn(false, active, running, writable, userText, o) == later.(effects := DropTranscripts(later.effects))
  {
    var user := Transcript(true, writable, userText, UserRole);
    var cr := [CorrectionRequested(userText)];
    DropTranscripts0();
    if writable {
      DropOne(Wrote(OutText(TranscriptMsg(userText, UserRole))));
    }
    DropOne(CorrectionRequested(userText));
    DropTranscriptsAppend(user, cr);
    assert DropTranscripts(user + cr) == Transcript(false, writable, userText, UserRole) + cr;
    match o.correct(userText) {
      case Failure(e) =>
        DropCatch(active, running, writable, e, o.restart);
        var c := CatchBlock(active, running, writable, e, o.restart);
        DropAfter(user + cr, c, c);
      case Success(corrected) =>
        DropFromPause(active, running, writable, corrected, o);
        DropAfter(user + cr, FromPause(true, active, running, writable, corrected, o),
                  FromPause(false, active, running, writable, corrected, o));
    }
  }
}
