/**
 * What the browser client shares: JavaScript values as far as the client
 * reads them, the states of a browser WebSocket, the frames it delivers, and
 * the session statuses and message types of voice-agent-ui/src/utils/constants.js.
 */
module JsClient {
  import opened Wrappers
  import opened Clr
  import opened Json
  import SessionCommon

  /** A value the client reads: `undefined`, or a value `JSON.parse` can produce (`null` is `Json(JNull)`). */
  datatype JsValue = Undefined | Json(v: JsonValue)

  /** What a statement can throw here: reading a property of `null`. */
  datatype JsError = TypeError

  function Str(s: string): JsValue {
    Json(JString(s))
  }

  /**
   * `v.key` on a parsed value: `null` throws; an object yields its member or
   * `undefined`; the other values have no member named like the keys the
   * client reads, so they yield `undefined`.
   */
  function Member(v: JsonValue, key: string): (r: Result<JsValue, JsError>)
    ensures r.Failure? <==> v.JNull?
    ensures v.JObject? && key in v.fields ==> r == Success(Json(v.fields[key]))
    ensures r.Success? && r.value != Undefined ==> v.JObject? && key in v.fields
  {
    match v
    case JNull => Failure(TypeError)
    case JObject(fields) => if key in fields then Success(Json(fields[key])) else Success(Undefined)
    case _ => Success(Undefined)
  }

  /** `SESSION_STATUS`. */
  const Connecting: string := "connecting"
  const Connected: string := "connected"
  const Listening: string := "listening"
  const Speaking: string := "speaking"
  const Error: string := "error"
  const Disconnected: string := "disconnected"

  /** `MESSAGE_TYPES`. */
  const StatusType: string := "status"
  const ErrorType: string := "error"
  const TranscriptType: string := "transcript"
  const EndSessionType: string := "endSession"

  /** `WebSocket.readyState`. */
  datatype ReadyState = ConnectingState | OpenState | ClosingState | ClosedState

  function Code(s: ReadyState): (n: nat)
    ensures n <= 3
    ensures s == OpenState <==> n == 1
  {
    match s
    case ConnectingState => 0
    case OpenState => 1
    case ClosingState => 2
    case ClosedState => 3
  }

  /** A frame the browser delivers to `onmessage`: text, already run through `JSON.parse`, or binary. */
  datatype ClientFrame = TextData(payload: TextPayload) | BinaryData(bytes: seq<byte>)

  /** A frame the client sends: `JSON.stringify` of a value, or raw bytes. */
  datatype SentFrame = SentText(value: JsonValue) | SentBinary(bytes: seq<byte>)

  /** The browser WebSocket object. */
  class BrowserSocket {
    var readyState: ReadyState
    var sent: seq<SentFrame>

    constructor ()
      ensures readyState == ConnectingState && sent == []
    {
      readyState := ConnectingState;
      sent := [];
    }

    /** `send` on an open socket; the callers here only send when it is open. */
    method Send(f: SentFrame)
      requires readyState == OpenState
      modifies this
      ensures sent == old(sent) + [f] && readyState == old(readyState)
    {
      sent := sent + [f];
    }

    /** `close`: a socket that is connecting or open starts its closing handshake; otherwise nothing happens. */
    method Close()
      modifies this
      ensures readyState == (if old(readyState) in {ConnectingState, OpenState} then ClosingState else old(readyState))
      ensures sent == old(sent)
    {
      if readyState == ConnectingState || readyState == OpenState {
        readyState := ClosingState;
      }
    }
  }

  /** `{ type: 'endSession' }`, as both clients send it. */
  const EndSessionMessage: JsonValue := JObject(map[SessionCommon.TypeKey := JString(EndSessionType)])

  /** The JSON the server serializes for each of its messages. */
  function Serialized(m: SessionCommon.ServerMessage): JsonValue {
    match m
    case TranscriptMsg(text, role) =>
      JObject(map["type" := JString(TranscriptType), "text" := JString(text), "role" := JString(role)])
    case StatusMsg(status) => JObject(map["type" := JString(StatusType), "status" := JString(status)])
    case ErrorMsg(error) => JObject(map["type" := JString(ErrorType), "error" := JString(error)])
  }

  /** The client's request to end the session is the one text message the server acts on. */
  lemma EndSessionReachesServer()
    ensures SessionCommon.ClassifyText(Parsed(EndSessionMessage)) == SessionCommon.EndRequested
  {
    assert EndSessionType == SessionCommon.EndSessionType;
  }
}
