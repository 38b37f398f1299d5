/**
 * The connection hook (voice-agent-ui/src/hooks/useWebSocket.js): React state
 * (status, error, messages) driven by the callbacks it installs on a
 * `WebSocketService`, and guarded pass-throughs to that service.
 *
 * The state updates are pure functions of the state; a listener the hook
 * installed is identified by its name, and `React` says what its invocation
 * does to the state. Message timestamps (`Date.now()`) are not modelled.
 */
module UseWebSocket {
  import opened Wrappers
  import opened Clr
  import opened Json
  import opened JsClient
  import opened WsClient
  import SessionCommon

  /** One entry of `messages`, without its timestamp. */
  datatype ChatMessage = ChatMessage(text: JsValue, role: JsValue)

  datatype HookState = HookState(status: JsValue, error: JsValue, messages: seq<ChatMessage>)

  /** `useState(CONNECTING)`, `useState(null)`, `useState([])`. */
  const InitialState: HookState := HookState(Str(Connecting), Json(JNull), [])

  /** `message.key` on a message that is not `null`. */
  function Get(message: JsonValue, key: string): JsValue
    requires !message.JNull?
  {
    Member(message, key).value
  }

  /**
   * `handleTextMessage`: reading `message.type` throws on `null`; otherwise
   * a status message sets the status, an error message the error, and a
   * transcript appends an entry; other types change nothing.
   */
  function HandleTextMessage(st: HookState, message: JsonValue): Result<HookState, JsError> {
    if message.JNull? then Failure(TypeError)
    else
      var kind := Get(message, "type");
      if kind == Str(StatusType) then Success(st.(status := Get(message, "status")))
      else if kind == Str(ErrorType) then Success(st.(error := Get(message, "error")))
      else if kind == Str(TranscriptType) then
        Success(st.(messages := st.messages + [ChatMessage(Get(message, "text"), Get(message, "role"))]))
      else Success(st)
  }

  /**
   * Each message type touches only its own part of the state: only a status
   * message changes the status, only an error message the error, and only a
   * transcript the messages, which it extends by one entry at the end. Only
   * `null` throws.
   */
  lemma {:induction false} HandleTextMessageFrame(st: HookState, message: JsonValue)
    ensures HandleTextMessage(st, message).Failure? <==> message.JNull?
    ensures var r := HandleTextMessage(st, message);
            r.Success? ==>
              var kind := Member(message, "type").value;
              && (r.value.status != st.status ==> kind == Str(StatusType))
              && (r.value.error != st.error ==> kind == Str(ErrorType))
              && (r.value.messages != st.messages <==> kind == Str(TranscriptType))
              && st.messages <= r.value.messages && |r.value.messages| <= |st.messages| + 1
              && (kind !in {Str(StatusType), Str(ErrorType), Str(TranscriptType)} ==> r.value == st)
  {
    if !message.JNull? {
      var kind := Get(message, "type");
      if kind == Str(TranscriptType) {
        assert kind != Str(StatusType) && kind != Str(ErrorType);
        var st2 := HandleTextMessage(st, message).value;
        assert |st2.messages| == |st.messages| + 1;
      }
    }
  }

  /**
   * The two ends agree: every control message the server serializes is read
   * by the hook as meant, a status as the status, an error as the error and
   * a transcript as a new entry with its text and role.
   */
  lemma ServerMessagesReachHook(st: HookState, m: SessionCommon.ServerMessage)
    ensures HandleTextMessage(st, Serialized(m)) == Success(
              match m
              case StatusMsg(s) => st.(status := Str(s))
              case ErrorMsg(e) => st.(error := Str(e))
              case TranscriptMsg(text, role) => st.(messages := st.messages + [ChatMessage(Str(text), Str(role))]))
  {
    match m
    case StatusMsg(s) =>
      assert Get(Serialized(m), "type") == Str(StatusType);
    case ErrorMsg(e) =>
      assert Get(Serialized(m), "type") == Str(ErrorType);
    case TranscriptMsg(text, role) =>
      assert Get(Serialized(m), "type") == Str(TranscriptType);
  }

  // --------------------------------------------------- connection callbacks

  function OnOpen(st: HookState): HookState {
    st.(status := Str(Connected), error := Json(JNull))
  }

  function OnClose(st: HookState): HookState {
    st.(status := Str(Disconnected))
  }

  function OnError(st: HookState, errorMsg: string): HookState {
    st.(error := Str(errorMsg), status := Str(Error))
  }

  /** The `catch` of `connect()`. */
  function ConnectFailed(st: HookState): HookState {
    st.(error := Str(FailedToConnectText), status := Str(Error))
  }

  const OpenListener: Listener := Listener("useWebSocket.onOpen")
  const CloseListener: Listener := Listener("useWebSocket.onClose")
  const ErrorListener: Listener := Listener("useWebSocket.onError")
  const TextListener: Listener := Listener("useWebSocket.onTextMessage")

  lemma HookListenersDistinct()
    ensures OpenListener != CloseListener && OpenListener != ErrorListener && OpenListener != TextListener
    ensures CloseListener != ErrorListener && CloseListener != TextListener && ErrorListener != TextListener
  {
    assert OpenListener.name[15] == 'O' && CloseListener.name[15] == 'C';
    assert ErrorListener.name[15] == 'E' && TextListener.name[15] == 'T';
  }

  /** What the hook passes to `setCallbacks`. */
  const HookCallbacks: Callbacks :=
    map[OnOpenKey := Some(OpenListener), OnCloseKey := Some(CloseListener),
        OnErrorKey := Some(ErrorListener), OnTextMessageKey := Some(TextListener)]

  /**
   * What one invocation does to the state. A throw from `handleTextMessage`
   * lands in the service's `try`, so the state is left as it was. Other
   * listeners do not touch the hook's state.
   */
  function React(st: HookState, inv: Invocation): HookState {
    if inv.listener == OpenListener then OnOpen(st)
    else if inv.listener == CloseListener then OnClose(st)
    else if inv.listener == ErrorListener && inv.arg.Text? then OnError(st, inv.arg.s)
    else if inv.listener == TextListener && inv.arg.Message? then
      match HandleTextMessage(st, inv.arg.value)
      case Success(s) => s
      case Failure(_) => st
    else st
  }

  function ReactAll(st: HookState, invs: seq<Invocation>): HookState {
    if invs == [] then st else React(ReactAll(st, invs[..|invs| - 1]), invs[|invs| - 1])
  }

  /** `if (!url) return`: a URL that is neither `null` nor empty. */
  predicate GivenUrl(url: Option<string>) {
    url.Some? && url.value != ""
  }

  // ------------------------------------------------------------- the hook

  class WebSocketHook {
    var state: HookState
    /** `wsServiceRef.current`. */
    var service: Option<WebSocketService>

    function Service(): set<object>
      reads this
    {
      if service.Some? then {service.value} else {}
    }

    function Sockets(): set<object>
      reads this, Service()
    {
      if service.Some? then service.value.Socket() else {}
    }

    function Footprint(): set<object>
      reads this, Service()
    {
      Service() + (if service.Some? then service.value.Socket() else {})
    }

    constructor ()
      ensures state == InitialState && service == None
    {
      state := InitialState;
      service := None;
    }

    /**
     * The effect on mount: without a URL nothing happens; otherwise a new
     * service gets the hook's callbacks and connects. When the socket
     * constructor throws, `onError` runs and then the `catch` of `connect()`.
     */
    method Mount(url: Option<string>, urlAccepted: bool)
      modifies this
      ensures !GivenUrl(url) ==> state == old(state) && service == old(service)
      ensures GivenUrl(url) ==>
                && service.Some? && fresh(service.value)
                && service.value.url == url.value
                && service.value.callbacks == Merge(InitialCallbacks, HookCallbacks)
      ensures GivenUrl(url) && urlAccepted ==>
                && state == old(state) && service.value.connection == Some(Pending)
                && service.value.ws.Some? && fresh(service.value.ws.value)
      ensures GivenUrl(url) && !urlAccepted ==>
                && state == ConnectFailed(OnError(old(state), FailedToConnectText))
                && service.value.ws == None
    {
      if !GivenUrl(url) {
        return;
      }
      var s := new WebSocketService(url.value);
      service := Some(s);
      s.SetCallbacks(HookCallbacks);
      s.Connect(urlAccepted);
      assert Slot(s.callbacks, OnErrorKey) == Some(ErrorListener);
      HookListenersDistinct();
      ghost var inv := Invocation(ErrorListener, Text(FailedToConnectText));
      if !urlAccepted {
        assert s.invoked == [inv] && s.invoked[..0] == [];
        assert ReactAll(state, s.invoked) == React(state, inv) == OnError(state, FailedToConnectText);
      }
      state := ReactAll(state, s.invoked);
      if s.connection == Some(Rejected) {
        state := ConnectFailed(state);
      }
    }

    /** The socket opened: the status becomes connected and the error is cleared. */
    method SocketOpened()
      requires service.Some? && service.value.connection.Some?
      requires Slot(service.value.callbacks, OnOpenKey) == Some(OpenListener)
      modifies this, Footprint()
      ensures service == old(service) && service.value.callbacks == old(service.value.callbacks)
      ensures state == OnOpen(old(state))
      ensures service.value.connection == Some(Settle(old(service.value.connection.value), Resolved))
    {
      service.value.Opened();
      state := React(state, Invocation(OpenListener, NoArgument));
    }

    /**
     * The socket failed: `onError` reports a connection error; if the
     * connection had not opened yet, the promise is rejected and its `catch`
     * then replaces the error with the failure to connect.
     */
    method SocketErrored()
      requires service.Some? && service.value.connection.Some?
      requires Slot(service.value.callbacks, OnErrorKey) == Some(ErrorListener)
      modifies this, Footprint()
      ensures service == old(service) && service.value.callbacks == old(service.value.callbacks)
      ensures old(service.value.connection) == Some(Pending) ==>
                state == ConnectFailed(OnError(old(state), ConnectionErrorText))
      ensures old(service.value.connection) != Some(Pending) ==> state == OnError(old(state), ConnectionErrorText)
    {
      var s := service.value;
      var wasPending := s.connection == Some(Pending);
      s.Errored();
      state := React(state, Invocation(ErrorListener, Text(ConnectionErrorText)));
      if wasPending {
        state := ConnectFailed(state);
      }
    }

    /** The socket closed: the status becomes disconnected. */
    method SocketClosed()
      requires service.Some? && Slot(service.value.callbacks, OnCloseKey) == Some(CloseListener)
      modifies this, Footprint()
      ensures service == old(service) && service.value.callbacks == old(service.value.callbacks)
      ensures state == OnClose(old(state))
    {
      service.value.ClosedByBrowser();
      state := React(state, Invocation(CloseListener, NoArgument));
    }

    /** A frame arrived: a parsed text frame goes through `handleTextMessage`. */
    method FrameReceived(f: ClientFrame)
      requires service.Some? && Slot(service.value.callbacks, OnTextMessageKey) == Some(TextListener)
      modifies this, Service()
      ensures service == old(service) && service.value.callbacks == old(service.value.callbacks)
      ensures state == ReactAll(old(state), Route(service.value.callbacks, f))
    {
      var s := service.value;
      s.Received(f);
      state := ReactAll(state, Route(s.callbacks, f));
    }

    /** `sendAudio`: passed on only when a service exists. */
    method SendAudio(audioData: seq<byte>)
      modifies Sockets()
      ensures old(service.Some? && service.value.ws.Some?) ==>
                service.value.ws.value.sent == old(service.value.ws.value.sent)
                + (if old(service.value.CanSend()) then [SentBinary(audioData)] else [])
    {
      if service.Some? {
        service.value.SendAudio(audioData);
      }
    }

    /** `sendMessage`: passed on only when a service exists. */
    method SendMessage(message: JsonValue)
      modifies Sockets()
      ensures old(service.Some? && service.value.ws.Some?) ==>
                service.value.ws.value.sent == old(service.value.ws.value.sent)
                + (if old(service.value.CanSend()) then [SentText(message)] else [])
    {
      if service.Some? {
        service.value.SendMessage(message);
      }
    }

    /** `endSession`: passed on only when a service exists. */
    method EndSession()
      modifies Footprint()
      ensures service == old(service) && state == old(state)
      ensures service.Some? ==> service.value.ws == None
      ensures old(service.Some? && service.value.ws.Some?) ==>
                old(service.value.ws.value).sent == old(service.value.ws.value.sent)
                + (if old(service.value.CanSend()) then [SentText(EndSessionMessage)] else [])
    {
      if service.Some? {
        service.value.EndSession();
      }
    }

    /** `isConnected`: `false` without a service, the service's answer otherwise. */
    function IsConnected(): (r: Option<bool>)
      reads this, Footprint()
      ensures service.None? ==> r == Some(false)
      ensures Truthy(r) <==> service.Some? && service.value.CanSend()
    {
      if service.None? then Some(false) else service.value.IsConnected()
    }

    /** `onAudioData`: the callback goes straight into the service's slot. */
    method OnAudioData(callback: Option<Listener>)
      modifies Service()
      ensures service.Some? ==> service.value.callbacks == old(service.value.callbacks)[OnAudioDataKey := callback]
      ensures service.Some? ==> service.value.ws == old(service.value.ws) && service.value.invoked == old(service.value.invoked)
                                && service.value.connection == old(service.value.connection)
    {
      if service.Some? {
        service.value.AssignSlot(OnAudioDataKey, callback);
      }
    }

    /** The effect's cleanup on unmount. */
    method Unmount()
      modifies Footprint()
      ensures service.Some? ==> service.value.ws == None
      ensures state == old(state)
    {
      if service.Some? {
        service.value.Close();
      }
    }
  }
}
