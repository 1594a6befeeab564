/**
  `ChatViewModel`: the screen state `{messages, isConnected, error}`, the two
  collectors as reducers, the trim-and-forward send and the teardown.
 */
module ChatViewModel {
  import opened Optional
  import opened Text
  import opened ChatModels
  import opened Session
  import ChatSocket
  import ChatRepository

  const ConnectionErrorText: string := "Error de conexión"

  datatype ChatState = ChatState(messages: seq<ChatMessage>, isConnected: bool, error: Option<string>)

  /** `ChatState()`: empty log, disconnected, no error. */
  function Initial(): (s: ChatState)
    ensures s.messages == [] && !s.isConnected && s.error.None?
  {
    ChatState([], false, None)
  }

  /** The view model together with the service it drives and the flow it collects. */
  datatype Screen = Screen(ui: ChatState, svc: ChatSocket.Service, subscription: Option<ChatRepository.Subscription>)

  /**
    Construction: the saved `streamId` defaults to "", and only a non-empty
    one starts a connection.
   */
  function Start(saved: Option<string>, store: TokenStore, svc: ChatSocket.Service): (r: Screen)
    ensures r.ui == Initial()
    ensures saved.None? || saved == Some("") ==> r.svc == svc && r.subscription.None?
    ensures saved.Some? && saved.value != "" ==>
      r.subscription.Some? && (r.svc, r.subscription.value) == ChatRepository.Connect(store, svc, saved.value)
  {
    var streamId := saved.GetOr("");
    if !IsEmpty(streamId) then
      var (svc', sub) := ChatRepository.Connect(store, svc, streamId);
      Screen(Initial(), svc', Some(sub))
    else
      Screen(Initial(), svc, None)
  }

  /**
    The connection-state collector: only `CONNECTED` counts as connected, only
    `ERROR` carries an error, and every other state clears it. The log is
    left alone.
   */
  function OnConnectionState(s: ChatState, c: ConnectionState): (r: ChatState)
    ensures r.messages == s.messages
    ensures r.isConnected <==> c == CONNECTED
    ensures c == ERROR ==> r.error == Some("Error de conexión")
    ensures c != ERROR ==> r.error.None?
  {
    s.(isConnected := c == CONNECTED, error := if c == ERROR then Some(ConnectionErrorText) else None)
  }

  /** The message collector: append at the end, no reordering, no de-duplication. */
  function OnMessage(s: ChatState, m: ChatMessage): (r: ChatState)
    ensures |r.messages| == |s.messages| + 1
    ensures r.messages[..|s.messages|] == s.messages && r.messages[|s.messages|] == m
    ensures r.isConnected == s.isConnected && r.error == s.error
  {
    s.(messages := s.messages + [m])
  }

  /** One value from either collector. */
  datatype ChatUpdate = StateUpdate(state: ConnectionState) | MessageUpdate(message: ChatMessage)

  function Apply(s: ChatState, u: ChatUpdate): ChatState {
    match u
    case StateUpdate(c) => OnConnectionState(s, c)
    case MessageUpdate(m) => OnMessage(s, m)
  }

  /** The updates applied in order (the two collectors, serialised). */
  function Collect(s: ChatState, us: seq<ChatUpdate>): ChatState
    decreases |us|
  {
    if |us| == 0 then s else Apply(Collect(s, us[..|us| - 1]), us[|us| - 1])
  }

  /** The messages among the updates, in order. */
  function MessagesOf(us: seq<ChatUpdate>): seq<ChatMessage>
    decreases |us|
  {
    if |us| == 0 then []
    else MessagesOf(us[..|us| - 1]) + (if us[|us| - 1].MessageUpdate? then [us[|us| - 1].message] else [])
  }

  /** The last connection state among the updates, if any. */
  function LastState(us: seq<ChatUpdate>): Option<ConnectionState>
    decreases |us|
  {
    if |us| == 0 then None
    else if us[|us| - 1].StateUpdate? then Some(us[|us| - 1].state)
    else LastState(us[..|us| - 1])
  }

  /** The log is the old log followed by every delivered message, in delivery order. */
  lemma {:induction false} CollectAppendsInOrder(s: ChatState, us: seq<ChatUpdate>)
    ensures Collect(s, us).messages == s.messages + MessagesOf(us)
    decreases |us|
  {
    if |us| > 0 {
      CollectAppendsInOrder(s, us[..|us| - 1]);
    }
  }

  /**
    The flags follow the last connection state alone; messages never touch
    them, and with no state update they keep their old values.
   */
  lemma {:induction false} CollectTracksLastState(s: ChatState, us: seq<ChatUpdate>)
    ensures LastState(us).None? ==> Collect(s, us).isConnected == s.isConnected && Collect(s, us).error == s.error
    ensures LastState(us).Some? ==>
      && (Collect(s, us).isConnected <==> LastState(us).value == CONNECTED)
      && Collect(s, us).error == (if LastState(us).value == ERROR then Some("Error de conexión") else None)
    decreases |us|
  {
    if |us| > 0 {
      CollectTracksLastState(s, us[..|us| - 1]);
    }
  }

  /**
    `sendMessage(content)`: the trimmed content is forwarded exactly when the
    content is not blank, so what is forwarded is never empty and has no
    surrounding whitespace.
   */
  function SendMessage(content: string): (forwarded: Option<string>)
    ensures forwarded.Some? <==> !IsBlank(content)
    ensures forwarded.Some? ==>
      && forwarded.value == Trim(content)
      && |forwarded.value| > 0
      && !IsWhitespace(forwarded.value[0])
      && !IsWhitespace(forwarded.value[|forwarded.value| - 1])
  {
    TrimEmptyIffBlank(content);
    if !IsBlank(content) then Some(Trim(content)) else None
  }

  /** The effect of `sendMessage` on the service: a blank content never reaches it. */
  function Send(svc: ChatSocket.Service, content: string): (r: ChatSocket.Service)
    ensures IsBlank(content) ==> r == svc
    ensures !IsBlank(content) ==> r == ChatRepository.SendMessage(svc, Trim(content))
  {
    match SendMessage(content)
    case None => svc
    case Some(text) => ChatRepository.SendMessage(svc, text)
  }

  /** `onCleared()`: always disconnects, whatever the state. */
  function OnCleared(svc: ChatSocket.Service): (r: ChatSocket.Service)
    ensures r == ChatRepository.Disconnect(svc)
    ensures r.socket.None? && r.state == DISCONNECTED
  {
    ChatRepository.Disconnect(svc)
  }

  function MessageUpdates(ms: seq<ChatMessage>): (us: seq<ChatUpdate>)
    ensures |us| == |ms|
    ensures forall i :: 0 <= i < |ms| ==> us[i] == MessageUpdate(ms[i])
  {
    seq(|ms|, i requires 0 <= i < |ms| => MessageUpdate(ms[i]))
  }

  lemma {:induction false} MessagesOfMessageUpdates(ms: seq<ChatMessage>)
    ensures MessagesOf(MessageUpdates(ms)) == ms
    decreases |ms|
  {
    if |ms| > 0 {
      var us := MessageUpdates(ms);
      assert us[..|us| - 1] == MessageUpdates(ms[..|ms| - 1]);
      MessagesOfMessageUpdates(ms[..|ms| - 1]);
    }
  }

  /**
    End to end: whatever the socket reports, in whatever mix, the log grows by
    exactly the chat frames received, mapped one to one, in arrival order.
    Undecodable frames and frames of another type leave no trace.
   */
  lemma ArrivalOrderReachesLog(ui: ChatState, svc: ChatSocket.Service, sub: ChatRepository.Subscription, events: seq<ChatSocket.Event>)
    ensures var after := ChatSocket.Run(svc, events);
            |svc.emitted| <= |after.emitted| &&
            Collect(ui, MessageUpdates(ChatRepository.Deliver(sub, after.emitted[|svc.emitted|..]))).messages
              == ui.messages + ChatRepository.Deliver(sub, ChatSocket.ChatFrames(events))
  {
    var after := ChatSocket.Run(svc, events);
    ChatSocket.RunEmitsChatFramesInOrder(svc, events);
    assert after.emitted[|svc.emitted|..] == ChatSocket.ChatFrames(events);
    var ms := ChatRepository.Deliver(sub, ChatSocket.ChatFrames(events));
    CollectAppendsInOrder(ui, MessageUpdates(ms));
    MessagesOfMessageUpdates(ms);
  }

  /**
    The walk-through: connect to "stream-42" as "user-7", the socket opens, and
    a frame from "user-7" arrives; the screen is connected and shows one own
    message.
   */
  lemma ConnectOpenReceiveScenario()
    ensures
      var store := TokenStore(Some("tok"), Some("user-7"));
      var screen := Start(Some("stream-42"), store, ChatSocket.Init());
      var ws := screen.svc.socket.value;
      var dto := ChatMessageDto(Some("message"), Some("1"), Some("user-7"), Some("ana"), Some("hi"), Some("2024-01-01T00:00:00Z"));
      var svc := ChatSocket.Run(screen.svc, [ChatSocket.Opened(ws), ChatSocket.MessageReceived(ws, Some(dto))]);
      var ui := Collect(screen.ui, [StateUpdate(ChatRepository.ObserveConnectionState(svc))]
                                   + MessageUpdates(ChatRepository.Deliver(screen.subscription.value, svc.emitted)));
      && svc.state == CONNECTED
      && ui.isConnected
      && ui.messages == [ChatMessage("1", "user-7", "ana", "hi", "2024-01-01T00:00:00Z", true)]
  {
    var store := TokenStore(Some("tok"), Some("user-7"));
    var screen := Start(Some("stream-42"), store, ChatSocket.Init());
    var ws := screen.svc.socket.value;
    var dto := ChatMessageDto(Some("message"), Some("1"), Some("user-7"), Some("ana"), Some("hi"), Some("2024-01-01T00:00:00Z"));
    var events := [ChatSocket.Opened(ws), ChatSocket.MessageReceived(ws, Some(dto))];
    assert screen.svc.emitted == [];
    var s1 := ChatSocket.Step(screen.svc, events[0]);
    var s2 := ChatSocket.Step(s1, events[1]);
    assert events[1..] == [events[1]];
    assert events[1..][1..] == [];
    assert ChatSocket.Run(s1, events[1..]) == ChatSocket.Run(s2, []) == s2;
    var svc := ChatSocket.Run(screen.svc, events);
    assert svc == s2;
    assert svc.emitted == [dto];
    var ms := ChatRepository.Deliver(screen.subscription.value, svc.emitted);
    assert ms == [ChatMessage("1", "user-7", "ana", "hi", "2024-01-01T00:00:00Z", true)];
    var us := [StateUpdate(svc.state)] + MessageUpdates(ms);
    assert us[..1] == [StateUpdate(svc.state)];
    assert us[..1][..0] == [];
    assert MessagesOf(us[..1]) == [];
    assert MessagesOf(us) == ms;
    CollectAppendsInOrder(screen.ui, us);
  }
}
