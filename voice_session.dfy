/**
 * The session component (voice-agent-ui/src/components/VoiceSession.jsx): it
 * shows the server's status, error and latest transcript, plays the server's
 * audio through a queue of its own, and pauses the capture worklet while a
 * chunk plays so the microphone does not pick up the speaker.
 *
 * As for the playback service, `playNextAudio` is split at its `await`: the
 * chunks taken from the queue and not finished are in `inFlight`, and the
 * browser's completions are operations with the decoder's verdict as a
 * parameter. Messages posted to the worklet's port are recorded in `posted`.
 */
module SessionView {
  import opened Wrappers
  import opened Clr
  import opened Json
  import opened JsClient

  datatype Chunk = Decoding(audio: seq<byte>) | Sounding(audio: seq<byte>)

  /** The component's state and refs that the modelled handlers use. */
  datatype Ui = Ui(
    status: JsValue, error: JsValue, transcript: JsValue,
    audioQueue: seq<seq<byte>>, isPlaying: bool,
    /** `isRecordingRef`, and whether `audioWorkletNodeRef` holds a node. */
    isRecording: bool, hasWorklet: bool,
    /** Whether `playbackAudioContextRef` holds a context. */
    hasPlaybackContext: bool,
    inFlight: seq<Chunk>,
    posted: seq<string>)

  const PauseMessage: string := "pause"
  const ResumeMessage: string := "resume"
  const PlaybackErrorText: string := "Audio playback error"
  const MicErrorPrefix: string := "Could not access microphone: "

  /** `useState('connecting')`, `useState(null)`, `useState('')` and the refs' initial values. */
  const Initial: Ui := Ui(Str(Connecting), Json(JNull), Str(""), [], false, false, false, false, [], [])

  function RemoveAt<T>(s: seq<T>, i: nat): seq<T>
    requires i < |s|
  {
    s[..i] + s[i + 1..]
  }

  /** `message.key` on a message that is not `null`. */
  function Get(message: JsonValue, key: string): JsValue
    requires !message.JNull?
  {
    Member(message, key).value
  }

  /**
   * `handleTextMessage`: text that does not parse, and a `null` message whose
   * `type` cannot be read, end in the `catch` and change nothing; a status
   * sets the status, an error the error, and a transcript replaces the one
   * shown.
   */
  function HandleTextMessage(st: Ui, p: TextPayload): Ui {
    match p
    case Malformed => st
    case Parsed(message) =>
      if message.JNull? then st
      else
        var kind := Get(message, "type");
        if kind == Str(StatusType) then st.(status := Get(message, "status"))
        else if kind == Str(ErrorType) then st.(error := Get(message, "error"))
        else if kind == Str(TranscriptType) then st.(transcript := Get(message, "text"))
        else st
  }

  /** The guard of both worklet messages. */
  predicate Captures(st: Ui) {
    st.isRecording && st.hasWorklet
  }

  /** `postMessage({ type })` to the worklet when recording with a worklet node. */
  function Post(st: Ui, kind: string): seq<string> {
    if Captures(st) then st.posted + [kind] else st.posted
  }

  /**
   * `playNextAudio` up to its `await`: an empty queue stops playback;
   * otherwise the head leaves the queue, capture is paused, the playback
   * context is created if needed and the decode begins.
   */
  function PlayNextAudio(st: Ui): Ui {
    if st.audioQueue == [] then st.(isPlaying := false)
    else
      st.(isPlaying := true, audioQueue := st.audioQueue[1..], posted := Post(st, PauseMessage),
          hasPlaybackContext := true, inFlight := st.inFlight + [Decoding(st.audioQueue[0])])
  }

  /** `handleAudioData`: the chunk joins the tail; playback starts if it was not running. */
  function HandleAudioData(st: Ui, audio: seq<byte>): Ui {
    var pushed := st.(audioQueue := st.audioQueue + [audio]);
    if st.isPlaying then pushed else PlayNextAudio(pushed)
  }

  /** `onended` of the `i`-th chunk's source: capture resumes, then the next chunk. */
  function SourceEnded(st: Ui, i: nat): Ui
    requires i < |st.inFlight| && st.inFlight[i].Sounding?
  {
    PlayNextAudio(st.(inFlight := RemoveAt(st.inFlight, i), posted := Post(st, ResumeMessage)))
  }

  /**
   * The decode of the `i`-th chunk settles. On success its source starts; a
   * failure lands in the `catch`, which shows the playback error, resumes
   * capture and moves on to the next chunk.
   */
  function DecodeDone(st: Ui, i: nat, decoded: bool): Ui
    requires i < |st.inFlight| && st.inFlight[i].Decoding?
  {
    if decoded then st.(inFlight := st.inFlight[i := Sounding(st.inFlight[i].audio)])
    else
      PlayNextAudio(st.(error := Str(PlaybackErrorText), inFlight := RemoveAt(st.inFlight, i),
                        posted := Post(st, ResumeMessage)))
  }

  /**
   * `startMic`, from the socket's `onopen`: when the microphone and the
   * worklet are set up, recording starts, the status says listening and the
   * error is cleared; a failure shows its message. Only failures that happen
   * before the worklet node exists are modelled.
   */
  function StartMic(st: Ui, outcome: Outcome<string>): Ui {
    match outcome
    case Pass => st.(hasWorklet := true, isRecording := true, status := Str(Listening), error := Json(JNull))
    case Fail(message) => st.(error := Str(MicErrorPrefix + message), status := Str(Error))
  }

  /** `cleanup`: the microphone stops, the playback context goes and the queue is emptied. */
  function Cleanup(st: Ui): Ui {
    st.(isRecording := false, hasWorklet := false, hasPlaybackContext := false, audioQueue := [], isPlaying := false)
  }

  // ------------------------------------------------------------ properties

  ghost predicate Consistent(st: Ui) {
    && (!st.isPlaying ==> st.audioQueue == [])
    && (st.isPlaying ==> st.inFlight != [])
  }

  /** What can happen to the component's playback and messages. */
  datatype Event =
    | TextArrived(payload: TextPayload)
    | AudioArrived(audio: seq<byte>)
    | Decoded(index: nat, ok: bool)
    | SourceDone(index: nat)
    | MicStarted(outcome: Outcome<string>)
    | CleanedUp

  predicate Enabled(st: Ui, ev: Event) {
    match ev
    case Decoded(i, _) => i < |st.inFlight| && st.inFlight[i].Decoding?
    case SourceDone(i) => i < |st.inFlight| && st.inFlight[i].Sounding?
    case _ => true
  }

  function Apply(st: Ui, ev: Event): Ui
    requires Enabled(st, ev)
  {
    match ev
    case TextArrived(p) => HandleTextMessage(st, p)
    case AudioArrived(a) => HandleAudioData(st, a)
    case Decoded(i, ok) => DecodeDone(st, i, ok)
    case SourceDone(i) => SourceEnded(st, i)
    case MicStarted(o) => StartMic(st, o)
    case CleanedUp => Cleanup(st)
  }

  /** Chunks wait only while one plays, and one is in flight whenever playback is said to run. */
  lemma ApplyConsistent(st: Ui, ev: Event)
    requires Consistent(st) && Enabled(st, ev)
    ensures Consistent(Apply(st, ev))
  {
  }

  /** The queue is first in, first out: audio joins at the tail and leaves only from the head. */
  lemma QueueIsFifo(st: Ui, ev: Event)
    requires Enabled(st, ev)
    ensures var q := if ev.AudioArrived? then st.audioQueue + [ev.audio] else st.audioQueue;
            exists k :: 0 <= k <= |q| && Apply(st, ev).audioQueue == q[k..]
  {
    var q := if ev.AudioArrived? then st.audioQueue + [ev.audio] else st.audioQueue;
    var r := Apply(st, ev).audioQueue;
    if r == q {
      assert r == q[0..];
    } else if r == [] {
      assert r == q[|q|..];
    } else {
      assert r == q[1..];
    }
  }

  /** Only the playback handlers post to the worklet, only while capture runs, and only at the end of what was posted. */
  lemma PostsFollowPlayback(st: Ui, ev: Event)
    requires Enabled(st, ev)
    ensures var t := Apply(st, ev);
            && st.posted <= t.posted
            && (t.posted != st.posted ==> Captures(st) && (ev.AudioArrived? || ev.Decoded? || ev.SourceDone?))
  {
    match ev
    case AudioArrived(_) =>
    case Decoded(_, _) =>
    case SourceDone(_) =>
    case _ =>
  }

  /** A playback start posts a pause, and an end or a failure posts a resume first, while capture runs. */
  lemma PlaybackPostsWhileCapturing(st: Ui, ev: Event)
    requires Enabled(st, ev) && Captures(st)
    ensures ev.AudioArrived? && !st.isPlaying ==> Apply(st, ev).posted == st.posted + [PauseMessage]
    ensures ev.SourceDone? || (ev.Decoded? && !ev.ok) ==>
              |Apply(st, ev).posted| > |st.posted| && Apply(st, ev).posted[|st.posted|] == ResumeMessage
  {
    match ev
    case AudioArrived(_) =>
    case Decoded(_, _) =>
    case SourceDone(_) =>
    case _ =>
  }

  /**
   * While capture runs, a chunk that arrives at an idle component is
   * bracketed by a pause and a resume whether it plays or fails, and only a
   * failure shows the playback error.
   */
  lemma ChunkIsBracketed(st: Ui, audio: seq<byte>, decoded: bool)
    requires Consistent(st) && !st.isPlaying && Captures(st)
    ensures var started := HandleAudioData(st, audio);
            var i := |st.inFlight|;
            && started.inFlight == st.inFlight + [Decoding(audio)]
            && var settled := DecodeDone(started, i, decoded);
               var ended := if decoded then SourceEnded(settled, i) else settled;
               && ended.posted == st.posted + [PauseMessage, ResumeMessage]
               && ended.inFlight == st.inFlight && !ended.isPlaying && ended.audioQueue == []
               && ended.error == (if decoded then st.error else Str(PlaybackErrorText))
  {
    var started := HandleAudioData(st, audio);
    var i := |st.inFlight|;
    assert RemoveAt(started.inFlight, i) == st.inFlight;
    if decoded {
      var settled := DecodeDone(started, i, decoded);
      assert RemoveAt(settled.inFlight, i) == st.inFlight;
    }
  }

  /** `handleTextMessage` touches one part of the state, chosen by the type, and nothing that is not parsed. */
  lemma HandleTextMessageFrame(st: Ui, p: TextPayload)
    ensures var t := HandleTextMessage(st, p);
            && t.audioQueue == st.audioQueue && t.inFlight == st.inFlight && t.posted == st.posted
            && (p.Malformed? || p.value.JNull? ==> t == st)
            && (t.status != st.status ==> p.Parsed? && Member(p.value, "type") == Success(Str(StatusType)))
            && (t.error != st.error ==> p.Parsed? && Member(p.value, "type") == Success(Str(ErrorType)))
            && (t.transcript != st.transcript ==> p.Parsed? && Member(p.value, "type") == Success(Str(TranscriptType)))
            && (p.Parsed? && Member(p.value, "type") == Success(Str(TranscriptType)) ==>
                  t.transcript == Member(p.value, "text").value)
  {
  }

  /** `getStatusColor`. */
  function GetStatusColor(status: JsValue): (color: string)
    ensures color in {"#4CAF50", "#2196F3", "#FFC107", "#F44336", "#9E9E9E"}
    ensures color == "#9E9E9E" <==> status !in {Str(Listening), Str(Speaking), Str(Connected), Str(Error)}
  {
    if status == Str(Listening) then "#4CAF50"
    else if status == Str(Speaking) then "#2196F3"
    else if status == Str(Connected) then "#FFC107"
    else if status == Str(Error) then "#F44336"
    else "#9E9E9E"
  }

  const KnownStatuses: set<JsValue> :=
    {Str(Listening), Str(Speaking), Str(Connected), Str(Connecting), Str(Error), Str(Disconnected)}

  /** `getStatusText`. */
  function GetStatusText(status: JsValue): (text: JsValue)
    ensures status !in KnownStatuses ==> text == status
    ensures status in KnownStatuses ==> text.Json? && text.v.JString? && text != status
  {
    if status == Str(Listening) then Str("Listening...")
    else if status == Str(Speaking) then Str("AI Speaking...")
    else if status == Str(Connected) then Str("Connected")
    else if status == Str(Connecting) then Str("Connecting...")
    else if status == Str(Error) then Str("Error")
    else if status == Str(Disconnected) then Str("Disconnected")
    else status
  }

  /** The statuses the server sends get their own text and colour. */
  lemma ServerStatusesAreLabelled(s: string)
    requires s in {"listening", "speaking"}
    ensures GetStatusText(Str(s)) != Str(s) && GetStatusColor(Str(s)) != "#9E9E9E"
  {
  }
}

/** The component object over the model above. */
module VoiceSessionUi {
  import opened Wrappers
  import opened Clr
  import opened Json
  import opened JsClient
  import opened SessionView

  class VoiceSession {
    var status: JsValue
    var error: JsValue
    var transcript: JsValue
    var audioQueue: seq<seq<byte>>
    var isPlaying: bool
    var isRecording: bool
    var hasWorklet: bool
    var hasPlaybackContext: bool
    var inFlight: seq<Chunk>
    var posted: seq<string>
    /** `wsRef.current`. */
    var ws: Option<BrowserSocket>
    /** Whether the `onSessionEnd` prop was given, and how many times it was called. */
    const hasOnSessionEnd: bool
    var sessionEnds: nat

    function State(): Ui
      reads this
    {
      Ui(status, error, transcript, audioQueue, isPlaying, isRecording, hasWorklet, hasPlaybackContext, inFlight, posted)
    }

    function Socket(): set<object>
      reads this
    {
      if ws.Some? then {ws.value} else {}
    }

    constructor (ws: Option<BrowserSocket>, hasOnSessionEnd: bool)
      ensures State() == Initial && this.ws == ws && this.hasOnSessionEnd == hasOnSessionEnd && sessionEnds == 0
    {
      status, error, transcript := Str(Connecting), Json(JNull), Str("");
      audioQueue, isPlaying := [], false;
      isRecording, hasWorklet, hasPlaybackContext := false, false, false;
      inFlight, posted := [], [];
      this.ws := ws;
      this.hasOnSessionEnd := hasOnSessionEnd;
      sessionEnds := 0;
    }

    method HandleTextMessage(p: TextPayload)
      modifies this
      ensures State() == SessionView.HandleTextMessage(old(State()), p)
      ensures ws == old(ws) && sessionEnds == old(sessionEnds)
    {
      if p.Parsed? && !p.value.JNull? {
        var message := p.value;
        var kind := Get(message, "type");
        if kind == Str(StatusType) {
          status := Get(message, "status");
        } else if kind == Str(ErrorType) {
          error := Get(message, "error");
        } else if kind == Str(TranscriptType) {
          transcript := Get(message, "text");
        }
      }
    }

    method HandleAudioData(audio: seq<byte>)
      modifies this
      ensures State() == SessionView.HandleAudioData(old(State()), audio)
      ensures ws == old(ws) && sessionEnds == old(sessionEnds)
    {
      audioQueue := audioQueue + [audio];
      if !isPlaying {
        PlayNextAudio();
      }
    }

    method PostToWorklet(kind: string)
      modifies this
      ensures posted == Post(old(State()), kind)
      ensures State() == old(State()).(posted := posted)
      ensures ws == old(ws) && sessionEnds == old(sessionEnds)
    {
      if isRecording && hasWorklet {
        posted := posted + [kind];
      }
    }

    /** `playNextAudio` up to its `await`. */
    method PlayNextAudio()
      modifies this
      ensures State() == SessionView.PlayNextAudio(old(State()))
      ensures ws == old(ws) && sessionEnds == old(sessionEnds)
    {
      if audioQueue == [] {
        isPlaying := false;
        return;
      }
      isPlaying := true;
      var audio := audioQueue[0];
      audioQueue := audioQueue[1..];
      PostToWorklet(PauseMessage);
      if !hasPlaybackContext {
        hasPlaybackContext := true;
      }
      inFlight := inFlight + [Decoding(audio)];
    }

    /** The rest of `playNextAudio` for the `i`-th chunk in flight. */
    method DecodeFinished(i: nat, decoded: bool)
      requires i < |inFlight| && inFlight[i].Decoding?
      modifies this
      ensures State() == DecodeDone(old(State()), i, decoded)
      ensures ws == old(ws) && sessionEnds == old(sessionEnds)
    {
      if decoded {
        inFlight := inFlight[i := Sounding(inFlight[i].audio)];
      } else {
        error := Str(PlaybackErrorText);
        inFlight := RemoveAt(inFlight, i);
        PostToWorklet(ResumeMessage);
        PlayNextAudio();
      }
    }

    /** `source.onended` for the `i`-th chunk in flight. */
    method OnSourceEnded(i: nat)
      requires i < |inFlight| && inFlight[i].Sounding?
      modifies this
      ensures State() == SourceEnded(old(State()), i)
      ensures ws == old(ws) && sessionEnds == old(sessionEnds)
    {
      inFlight := RemoveAt(inFlight, i);
      PostToWorklet(ResumeMessage);
      PlayNextAudio();
    }

    method Cleanup()
      modifies this
      ensures State() == SessionView.Cleanup(old(State()))
      ensures ws == old(ws) && sessionEnds == old(sessionEnds)
    {
      isRecording := false;
      hasWorklet := false;
      if hasPlaybackContext {
        hasPlaybackContext := false;
      }
      audioQueue := [];
      isPlaying := false;
    }

    /**
     * `handleEndSession`: cleanup; on an open socket, `endSession` goes out
     * and the socket is closed; `onSessionEnd`, when given, is called either way.
     */
    method HandleEndSession()
      modifies this, Socket()
      ensures State() == SessionView.Cleanup(old(State()))
      ensures ws == old(ws) && sessionEnds == old(sessionEnds) + (if hasOnSessionEnd then 1 else 0)
      ensures ws.Some? && old(ws.value.readyState) == OpenState ==>
                ws.value.sent == old(ws.value.sent) + [SentText(EndSessionMessage)] && ws.value.readyState == ClosingState
      ensures ws.Some? && old(ws.value.readyState) != OpenState ==> unchanged(ws.value)
    {
      Cleanup();
      if ws.Some? && ws.value.readyState == OpenState {
        ws.value.Send(SentText(EndSessionMessage));
        ws.value.Close();
      }
      if hasOnSessionEnd {
        sessionEnds := sessionEnds + 1;
      }
    }
  }
}
