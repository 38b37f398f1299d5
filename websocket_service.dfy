/**
 * The client transport (voice-agent-ui/src/services/websocket/WebSocketService.js):
 * it owns the browser socket, keeps a set of callback slots, routes incoming
 * frames to them and guards every send on the socket being open.
 *
 * Callback slots hold function values; the model names each one (`Listener`)
 * and records every invocation, in order, in `invoked`. What a listener then
 * does belongs to whoever installed it. The browser's events (`onopen`,
 * `onerror`, `onclose`, `onmessage`) are methods, each one atomic.
 */
module WsClient {
  import opened Wrappers
  import opened Clr
  import opened Json
  import opened JsClient

  /** A function value stored in a callback slot, known by its name. */
  datatype Listener = Listener(name: string)

  /** What a callback is called with. */
  datatype Argument = NoArgument | Text(s: string) | Message(value: JsonValue) | Audio(bytes: seq<byte>)

  datatype Invocation = Invocation(listener: Listener, arg: Argument)

  const OnOpenKey: string := "onOpen"
  const OnCloseKey: string := "onClose"
  const OnErrorKey: string := "onError"
  const OnTextMessageKey: string := "onTextMessage"
  const OnAudioDataKey: string := "onAudioData"

  const ConnectionErrorText: string := "WebSocket connection error"
  const FailedToConnectText: string := "Failed to connect to server"

  /** The `callbacks` object: each key holds a function, or `null` (`None`). */
  type Callbacks = map<string, Option<Listener>>

  const InitialCallbacks: Callbacks :=
    map[OnOpenKey := None, OnCloseKey := None, OnErrorKey := None, OnTextMessageKey := None, OnAudioDataKey := None]

  /** `{ ...current, ...given }`: the given keys take the given values, every other key keeps its own. */
  function Merge(current: Callbacks, given: Callbacks): (r: Callbacks)
    ensures r.Keys == current.Keys + given.Keys
    ensures forall k :: k in given ==> r[k] == given[k]
    ensures forall k :: k in current && k !in given ==> r[k] == current[k]
  {
    current + given
  }

  /** `callbacks[key]`, where a missing key reads as `undefined`, as falsy as `null`. */
  function Slot(cbs: Callbacks, key: string): Option<Listener> {
    if key in cbs then cbs[key] else None
  }

  /** `if (callbacks[key]) callbacks[key](arg)`. */
  function Call(cbs: Callbacks, key: string, arg: Argument): seq<Invocation> {
    match Slot(cbs, key)
    case None => []
    case Some(l) => [Invocation(l, arg)]
  }

  /**
   * `onmessage`: a text frame goes to `handleTextMessage`, which hands the
   * parsed value to `onTextMessage` and drops text that does not parse; any
   * other frame goes to `onAudioData`.
   */
  function Route(cbs: Callbacks, f: ClientFrame): seq<Invocation> {
    match f
    case TextData(p) =>
      (match p
       case Malformed => []
       case Parsed(v) => Call(cbs, OnTextMessageKey, Message(v)))
    case BinaryData(b) => Call(cbs, OnAudioDataKey, Audio(b))
  }

  /**
   * A frame reaches at most one callback: text that parses reaches
   * `onTextMessage` with the parsed value, binary data reaches `onAudioData`
   * with the bytes, and nothing else is delivered.
   */
  lemma RouteDelivers(cbs: Callbacks, f: ClientFrame)
    ensures |Route(cbs, f)| <= 1
    ensures Route(cbs, f) != [] <==>
              if f.TextData? then f.payload.Parsed? && Slot(cbs, OnTextMessageKey).Some?
              else Slot(cbs, OnAudioDataKey).Some?
    ensures f.TextData? && f.payload.Parsed? && Slot(cbs, OnTextMessageKey).Some? ==>
              Route(cbs, f) == [Invocation(Slot(cbs, OnTextMessageKey).value, Message(f.payload.value))]
    ensures f.BinaryData? && Slot(cbs, OnAudioDataKey).Some? ==>
              Route(cbs, f) == [Invocation(Slot(cbs, OnAudioDataKey).value, Audio(f.bytes))]
  {
  }

  /** Text that does not parse never reaches `onTextMessage`, whatever the slots hold. */
  lemma MalformedIsDropped(cbs: Callbacks)
    ensures Route(cbs, TextData(Malformed)) == []
  {
  }

  /** The state of the promise `connect` returned. */
  datatype Settlement = Pending | Resolved | Rejected

  /** `resolve()` or `reject()`: only the first one counts. */
  function Settle(p: Settlement, to: Settlement): (r: Settlement)
    requires to != Pending
    ensures p == Pending ==> r == to
    ensures p != Pending ==> r == p
  {
    if p == Pending then to else p
  }

  /** A JavaScript truthiness test on what `isConnected` returns (`null` is `None`). */
  predicate Truthy(r: Option<bool>) {
    r == Some(true)
  }

  class WebSocketService {
    const url: string
    /** `this.ws`: the socket of the last `connect`, `null` after `close`. */
    var ws: Option<BrowserSocket>
    var callbacks: Callbacks
    /** Every callback invocation so far. */
    var invoked: seq<Invocation>
    /** The promise of the last `connect`, if any. */
    var connection: Option<Settlement>

    function Socket(): set<object>
      reads this
    {
      if ws.Some? then {ws.value} else {}
    }

    constructor (url: string)
      ensures this.url == url && ws == None && callbacks == InitialCallbacks
      ensures invoked == [] && connection == None
    {
      this.url := url;
      ws := None;
      callbacks := InitialCallbacks;
      invoked := [];
      connection := None;
    }

    /** `setCallbacks`. */
    method SetCallbacks(given: Callbacks)
      modifies this
      ensures callbacks == Merge(old(callbacks), given)
      ensures ws == old(ws) && invoked == old(invoked) && connection == old(connection)
    {
      callbacks := callbacks + given;
    }

    /** `callbacks.onAudioData = callback`, as the hook does it. */
    method AssignSlot(key: string, l: Option<Listener>)
      modifies this
      ensures callbacks == old(callbacks)[key := l]
      ensures ws == old(ws) && invoked == old(invoked) && connection == old(connection)
    {
      callbacks := callbacks[key := l];
    }

    /**
     * `connect`: a new socket, still connecting, and a pending promise. When
     * the socket constructor throws (`urlAccepted` is false) `ws` keeps its
     * value, `onError` hears that the connection failed and the promise is
     * rejected.
     */
    method Connect(urlAccepted: bool)
      modifies this
      ensures urlAccepted ==>
                && ws.Some? && fresh(ws.value) && ws.value.readyState == ConnectingState && ws.value.sent == []
                && connection == Some(Pending) && invoked == old(invoked)
      ensures !urlAccepted ==>
                && ws == old(ws) && connection == Some(Rejected)
                && invoked == old(invoked) + Call(callbacks, OnErrorKey, Text(FailedToConnectText))
      ensures callbacks == old(callbacks)
    {
      if urlAccepted {
        var socket := new BrowserSocket();
        ws := Some(socket);
        connection := Some(Pending);
      } else {
        invoked := invoked + Call(callbacks, OnErrorKey, Text(FailedToConnectText));
        connection := Some(Rejected);
      }
    }

    /** `onopen`: the socket is open, `onOpen` runs, and the promise resolves unless it already settled. */
    method Opened()
      requires connection.Some?
      modifies this, Socket()
      ensures ws == old(ws) && callbacks == old(callbacks)
      ensures ws.Some? ==> ws.value.readyState == OpenState && ws.value.sent == old(ws.value.sent)
      ensures invoked == old(invoked) + Call(callbacks, OnOpenKey, NoArgument)
      ensures connection == Some(Settle(old(connection.value), Resolved))
    {
      if ws.Some? {
        ws.value.readyState := OpenState;
      }
      invoked := invoked + Call(callbacks, OnOpenKey, NoArgument);
      connection := Some(Settle(connection.value, Resolved));
    }

    /** `onerror`: `onError` hears of a connection error, and the promise is rejected unless it already settled. */
    method Errored()
      requires connection.Some?
      modifies this
      ensures ws == old(ws) && callbacks == old(callbacks)
      ensures invoked == old(invoked) + Call(callbacks, OnErrorKey, Text(ConnectionErrorText))
      ensures connection == Some(Settle(old(connection.value), Rejected))
    {
      invoked := invoked + Call(callbacks, OnErrorKey, Text(ConnectionErrorText));
      connection := Some(Settle(connection.value, Rejected));
    }

    /** `onclose`: the socket is closed and `onClose` runs. */
    method ClosedByBrowser()
      modifies this, Socket()
      ensures ws == old(ws) && callbacks == old(callbacks) && connection == old(connection)
      ensures ws.Some? ==> ws.value.readyState == ClosedState && ws.value.sent == old(ws.value.sent)
      ensures invoked == old(invoked) + Call(callbacks, OnCloseKey, NoArgument)
    {
      if ws.Some? {
        ws.value.readyState := ClosedState;
      }
      invoked := invoked + Call(callbacks, OnCloseKey, NoArgument);
    }

    /** `onmessage`. */
    method Received(f: ClientFrame)
      modifies this
      ensures invoked == old(invoked) + Route(callbacks, f)
      ensures ws == old(ws) && callbacks == old(callbacks) && connection == old(connection)
    {
      match f
      case TextData(p) =>
        HandleTextMessage(p);
      case BinaryData(b) =>
        invoked := invoked + Call(callbacks, OnAudioDataKey, Audio(b));
    }

    /** `handleTextMessage`: a parse error is logged and goes no further. */
    method HandleTextMessage(p: TextPayload)
      modifies this
      ensures invoked == old(invoked) + Route(callbacks, TextData(p))
      ensures ws == old(ws) && callbacks == old(callbacks) && connection == old(connection)
    {
      if p.Parsed? {
        invoked := invoked + Call(callbacks, OnTextMessageKey, Message(p.value));
      }
    }

    /** Whether `ws` is set and open: the guard of both send methods. */
    predicate CanSend()
      reads this, Socket()
    {
      ws.Some? && ws.value.readyState == OpenState
    }

    /** `sendAudio`: the bytes go out only on an open socket. */
    method SendAudio(audioData: seq<byte>)
      modifies Socket()
      ensures ws.Some? ==> ws.value.sent == old(ws.value.sent) + (if old(CanSend()) then [SentBinary(audioData)] else [])
      ensures ws.Some? ==> ws.value.readyState == old(ws.value.readyState)
    {
      if ws.Some? && ws.value.readyState == OpenState {
        ws.value.Send(SentBinary(audioData));
      }
    }

    /** `sendMessage`: the message goes out as JSON only on an open socket. */
    method SendMessage(message: JsonValue)
      modifies Socket()
      ensures ws.Some? ==> ws.value.sent == old(ws.value.sent) + (if old(CanSend()) then [SentText(message)] else [])
      ensures ws.Some? ==> ws.value.readyState == old(ws.value.readyState)
    {
      if ws.Some? && ws.value.readyState == OpenState {
        ws.value.Send(SentText(message));
      }
    }

    /** `close`: the socket, if any, is told to close and then forgotten. */
    method Close()
      modifies this, Socket()
      ensures ws == None
      ensures old(ws).Some? ==>
                && old(ws).value.readyState == (if old(ws.value.readyState) in {ConnectingState, OpenState} then ClosingState
                                                else old(ws.value.readyState))
                && old(ws).value.sent == old(ws.value.sent)
      ensures callbacks == old(callbacks) && invoked == old(invoked) && connection == old(connection)
    {
      if ws.Some? {
        ws.value.Close();
        ws := None;
      }
    }

    /** `endSession`: `{ type: 'endSession' }` goes out if the socket is open, then the socket is closed. */
    method EndSession()
      modifies this, Socket()
      ensures ws == None
      ensures old(ws).Some? ==>
                && old(ws).value.sent == old(ws.value.sent) + (if old(CanSend()) then [SentText(EndSessionMessage)] else [])
                && old(ws).value.readyState == (if old(ws.value.readyState) in {ConnectingState, OpenState} then ClosingState
                                                else old(ws.value.readyState))
      ensures callbacks == old(callbacks) && invoked == old(invoked) && connection == old(connection)
    {
      SendMessage(EndSessionMessage);
      Close();
    }

    /** `isConnected`: truthy exactly when the socket is set and open; `null`, not `false`, when there is none. */
    function IsConnected(): (r: Option<bool>)
      reads this, Socket()
      ensures Truthy(r) <==> CanSend()
      ensures r == None <==> ws.None?
    {
      if ws.None? then None else Some(ws.value.readyState == OpenState)
    }

    /** `getReadyState`: the numeric state of the socket, or `null`. */
    function GetReadyState(): (r: Option<nat>)
      reads this, Socket()
      ensures r.Some? <==> ws.Some?
      ensures r == Some(1) <==> CanSend()
    {
      if ws.Some? then Some(Code(ws.value.readyState)) else None
    }
  }

  /** A second `close` changes nothing: the first one forgot the socket. */
  method CloseTwice(s: WebSocketService)
    modifies s, s.Socket()
    ensures s.ws == None
    ensures old(s.ws).Some? ==> old(s.ws).value.readyState != OpenState
    ensures s.callbacks == old(s.callbacks) && s.invoked == old(s.invoked)
  {
    s.Close();
    s.Close();
  }
}
