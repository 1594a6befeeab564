/**
  `ChatWebSocketService` as a sequential state machine. The service holds at
  most one socket reference, the latest connection state, the ordered log of
  chat frames it has emitted to subscribers, and a log of what it asked the
  socket layer to do (open, close, send).

  Listener callbacks arrive as events that name the socket they come from,
  but no transition looks at that name: the service applies a callback of a
  superseded socket exactly like one of the current socket.
 */
module ChatSocket {
  import opened Optional
  import opened Text
  import opened ChatModels

  const NormalClosure: int := 1000
  const LeaveReason: string := "Usuario salió"
  const EndpointBase: string := "ws://10.0.2.2:8080/ws/chat/"
  const TokenQuery: string := "?token="
  const MessageType: string := "message"

  /** A socket created by `okHttpClient.newWebSocket`; `serial` tells sockets apart. */
  datatype Socket = Socket(serial: nat, url: string)

  /** What the service asks of the socket layer. */
  datatype Effect =
    | OpenSocket(socket: Socket)
    | CloseSocket(socket: Socket, code: int, reason: Option<string>)
    | SendFrame(socket: Socket, frame: SendMessageDto)

  datatype Service = Service(
    socket: Option<Socket>,
    state: ConnectionState,
    serials: nat,                  // sockets created so far
    emitted: seq<ChatMessageDto>,  // frames emitted on `messages`, in order
    effects: seq<Effect>
  )

  datatype Event =
    | ConnectCall(streamId: string, token: string)
    | SendCall(content: string)
    | DisconnectCall
    | Opened(source: Socket)
    | MessageReceived(source: Socket, decoded: Option<ChatMessageDto>)  // None: Gson failed
    | Closing(source: Socket, code: int, reason: string)
    | Closed(source: Socket, code: int, reason: string)
    | Failed(source: Socket)

  /** The freshly constructed service: no socket, `DISCONNECTED`, nothing emitted. */
  function Init(): (s: Service)
    ensures s.socket.None? && s.state == DISCONNECTED
    ensures s.emitted == [] && s.effects == []
    ensures Valid(s)
  {
    Service(None, DISCONNECTED, 0, [], [])
  }

  /** The chat URL; stream id and token are pasted in without any escaping. */
  function Endpoint(streamId: string, token: string): (url: string)
    ensures |url| == |EndpointBase| + |streamId| + |TokenQuery| + |token|
    ensures EndpointBase <= url
    ensures url[|EndpointBase|..|EndpointBase| + |streamId|] == streamId
    ensures url[|EndpointBase| + |streamId|..|EndpointBase| + |streamId| + |TokenQuery|] == TokenQuery
    ensures url[|url| - |token|..] == token
  {
    EndpointBase + streamId + TokenQuery + token
  }

  /** Splits a chat URL at its first '?' back into stream id and token. */
  function ParseEndpoint(url: string): Option<(string, string)> {
    if !(EndpointBase <= url) then None
    else
      var rest := url[|EndpointBase|..];
      var q := IndexOf(rest, '?');
      if TokenQuery <= rest[q..] then Some((rest[..q], rest[q + |TokenQuery|..])) else None
  }

  /** A stream id without '?' is recovered from the URL together with the token. */
  lemma EndpointRoundTrip(streamId: string, token: string)
    requires '?' !in streamId
    ensures ParseEndpoint(Endpoint(streamId, token)) == Some((streamId, token))
  {
    var url := Endpoint(streamId, token);
    var rest := url[|EndpointBase|..];
    assert rest == streamId + TokenQuery + token;
    var q := IndexOf(rest, '?');
    assert rest[|streamId|] == '?';
    assert q == |streamId|;
    assert rest[q..] == TokenQuery + token;
    assert rest[..q] == streamId;
    assert rest[q + |TokenQuery|..] == token;
  }

  /** Without escaping, two different (stream id, token) pairs can produce the same URL. */
  lemma EndpointAmbiguous()
    ensures Endpoint("a?token=b", "c") == Endpoint("a", "b?token=c")
  {
  }

  /** `disconnect()`: close a held socket with 1000 "Usuario salió", drop it, report `DISCONNECTED`. */
  function Disconnect(s: Service): (r: Service)
    ensures r.socket.None? && r.state == DISCONNECTED
    ensures r.serials == s.serials && r.emitted == s.emitted
    ensures s.socket.None? ==> r.effects == s.effects
    ensures s.socket.Some? ==> r.effects == s.effects + [CloseSocket(s.socket.value, 1000, Some("Usuario salió"))]
  {
    var closes := if s.socket.Some? then [CloseSocket(s.socket.value, NormalClosure, Some(LeaveReason))] else [];
    s.(socket := None, state := DISCONNECTED, effects := s.effects + closes)
  }

  /** Disconnecting twice is disconnecting once. */
  lemma DisconnectIdempotent(s: Service)
    ensures Disconnect(Disconnect(s)) == Disconnect(s)
  {
  }

  /**
    `connect(streamId, token)`: a full `disconnect` first (the old socket is
    closed before the new one is opened), then a new socket to the chat URL.
    The state stays `DISCONNECTED` until the socket reports it is open.
   */
  function Connect(s: Service, streamId: string, token: string): (r: Service)
    ensures r.socket == Some(Socket(s.serials, Endpoint(streamId, token)))
    ensures r.state == DISCONNECTED
    ensures r.serials == s.serials + 1 && r.emitted == s.emitted
    ensures s.socket.None? ==> r.effects == s.effects + [OpenSocket(r.socket.value)]
    ensures s.socket.Some? ==>
      r.effects == s.effects + [CloseSocket(s.socket.value, 1000, Some("Usuario salió")), OpenSocket(r.socket.value)]
  {
    var d := Disconnect(s);
    var created := Socket(d.serials, Endpoint(streamId, token));
    d.(socket := Some(created), serials := d.serials + 1, effects := d.effects + [OpenSocket(created)])
  }

  /**
    `sendMessage(content)`: one `send_message` frame goes to the held socket,
    whatever the connection state; with no socket nothing happens.
   */
  function SendMessage(s: Service, content: string): (r: Service)
    ensures r.socket == s.socket && r.state == s.state && r.serials == s.serials && r.emitted == s.emitted
    ensures s.socket.None? ==> r.effects == s.effects
    ensures s.socket.Some? ==> |r.effects| == |s.effects| + 1 && r.effects[..|s.effects|] == s.effects
    ensures s.socket.Some? ==>
      var e := r.effects[|s.effects|];
      e.SendFrame? && e.socket == s.socket.value && e.frame.kind == "send_message" && e.frame.content == content
  {
    match s.socket
    case None => s
    case Some(ws) => s.(effects := s.effects + [SendFrame(ws, Outbound(content))])
  }

  /** A decoded frame is forwarded exactly when its type is the string "message". */
  predicate IsChatFrame(decoded: Option<ChatMessageDto>) {
    decoded.Some? && decoded.value.kind == Some(MessageType)
  }

  /** `onMessage`: emit a chat frame; drop anything that failed to decode or has another type. */
  function Receive(s: Service, decoded: Option<ChatMessageDto>): (r: Service)
    ensures r.socket == s.socket && r.state == s.state && r.serials == s.serials && r.effects == s.effects
    ensures IsChatFrame(decoded) ==> r.emitted == s.emitted + [decoded.value]
    ensures !IsChatFrame(decoded) ==> r.emitted == s.emitted
  {
    if IsChatFrame(decoded) then s.(emitted := s.emitted + [decoded.value]) else s
  }

  /**
    One event. The callbacks overwrite the state without looking at it or at
    the socket they come from: open gives `CONNECTED`, closing and closed give
    `DISCONNECTED`, failure gives `ERROR`. `onClosing` also closes its socket
    with 1000 and no reason, but keeps the reference.
   */
  function Step(s: Service, e: Event): (r: Service)
    ensures e.Opened? ==> r.state == CONNECTED
    ensures e.Closing? || e.Closed? || e.DisconnectCall? || e.ConnectCall? ==> r.state == DISCONNECTED
    ensures e.Failed? ==> r.state == ERROR
    ensures e.SendCall? || e.MessageReceived? ==> r.state == s.state
    ensures !e.ConnectCall? && !e.DisconnectCall? ==> r.socket == s.socket && r.serials == s.serials
    ensures e.Closing? ==> r.effects == s.effects + [CloseSocket(e.source, 1000, None)]
    ensures e.Opened? || e.Closed? || e.Failed? || e.MessageReceived? ==> r.effects == s.effects
    ensures !e.MessageReceived? ==> r.emitted == s.emitted
    ensures |s.effects| <= |r.effects| && r.effects[..|s.effects|] == s.effects
  {
    match e
    case ConnectCall(streamId, token) => Connect(s, streamId, token)
    case SendCall(content) => SendMessage(s, content)
    case DisconnectCall => Disconnect(s)
    case Opened(_) => s.(state := CONNECTED)
    case MessageReceived(_, decoded) => Receive(s, decoded)
    case Closing(ws, _, _) => s.(state := DISCONNECTED, effects := s.effects + [CloseSocket(ws, NormalClosure, None)])
    case Closed(_, _, _) => s.(state := DISCONNECTED)
    case Failed(_) => s.(state := ERROR)
  }

  /** The events applied in order. */
  function Run(s: Service, events: seq<Event>): Service
    decreases |events|
  {
    if |events| == 0 then s else Run(Step(s, events[0]), events[1..])
  }

  /** The chat frames among a sequence of events, in arrival order: the reference for what is emitted. */
  function ChatFrames(events: seq<Event>): seq<ChatMessageDto>
    decreases |events|
  {
    if |events| == 0 then []
    else
      var e := events[0];
      var head := if e.MessageReceived? && IsChatFrame(e.decoded) then [e.decoded.value] else [];
      head + ChatFrames(events[1..])
  }

  /**
    Emission keeps arrival order and appends nothing else: after any run, the
    emitted log is the old log followed by exactly the chat frames received.
   */
  lemma {:induction false} RunEmitsChatFramesInOrder(s: Service, events: seq<Event>)
    ensures Run(s, events).emitted == s.emitted + ChatFrames(events)
    decreases |events|
  {
    if |events| > 0 {
      RunEmitsChatFramesInOrder(Step(s, events[0]), events[1..]);
    }
  }

  /** A frame that does not decode, between two chat frames, changes nothing about them. */
  lemma GarbageBetweenFramesIsDropped(s: Service, ws: Socket, m1: ChatMessageDto, m2: ChatMessageDto)
    requires m1.kind == Some("message") && m2.kind == Some("message")
    ensures Run(s, [MessageReceived(ws, Some(m1)), MessageReceived(ws, None), MessageReceived(ws, Some(m2))]).emitted
            == s.emitted + [m1, m2]
  {
    var events := [MessageReceived(ws, Some(m1)), MessageReceived(ws, None), MessageReceived(ws, Some(m2))];
    RunEmitsChatFramesInOrder(s, events);
    assert events[1..] == [MessageReceived(ws, None), MessageReceived(ws, Some(m2))];
    assert events[1..][1..] == [MessageReceived(ws, Some(m2))];
    assert events[1..][1..][1..] == [];
    assert ChatFrames(events[1..][1..]) == [m2];
    assert ChatFrames(events[1..]) == [m2];
  }

  /** The service has closed socket `serial` itself, at some point. */
  ghost predicate ClosedByClient(effects: seq<Effect>, serial: nat) {
    exists j :: 0 <= j < |effects| && effects[j].CloseSocket? && effects[j].socket.serial == serial
  }

  predicate Holds(s: Service, serial: nat) {
    s.socket.Some? && s.socket.value.serial == serial
  }

  /**
    The close-before-open invariant: the held socket is the newest one, and
    every other socket ever created has been closed by the service.
   */
  ghost predicate Valid(s: Service) {
    && (s.socket.Some? ==> s.socket.value.serial + 1 == s.serials)
    && (forall k: nat :: k < s.serials && !Holds(s, k) ==> ClosedByClient(s.effects, k))
  }

  lemma ClosedPersists(effects: seq<Effect>, more: seq<Effect>, serial: nat)
    requires ClosedByClient(effects, serial)
    ensures ClosedByClient(effects + more, serial)
  {
    var j :| 0 <= j < |effects| && effects[j].CloseSocket? && effects[j].socket.serial == serial;
    assert (effects + more)[j] == effects[j];
  }

  lemma ValidWhenEffectsGrow(s: Service, r: Service)
    requires Valid(s)
    requires r.socket == s.socket && r.serials == s.serials
    requires |s.effects| <= |r.effects| && r.effects[..|s.effects|] == s.effects
    ensures Valid(r)
  {
    forall k: nat | k < r.serials && !Holds(r, k)
      ensures ClosedByClient(r.effects, k)
    {
      ClosedPersists(s.effects, r.effects[|s.effects|..], k);
      assert s.effects + r.effects[|s.effects|..] == r.effects;
    }
  }

  lemma DisconnectValid(s: Service)
    requires Valid(s)
    ensures Valid(Disconnect(s))
  {
    var r := Disconnect(s);
    forall k: nat | k < r.serials
      ensures ClosedByClient(r.effects, k)
    {
      if Holds(s, k) {
        assert r.effects[|s.effects|].socket.serial == k;
      } else {
        ClosedPersists(s.effects, r.effects[|s.effects|..], k);
        assert s.effects + r.effects[|s.effects|..] == r.effects;
      }
    }
  }

  /** Every event keeps at most one socket that the service has not closed. */
  lemma StepValid(s: Service, e: Event)
    requires Valid(s)
    ensures Valid(Step(s, e))
  {
    var r := Step(s, e);
    match e
    case ConnectCall(streamId, token) =>
      var d := Disconnect(s);
      DisconnectValid(s);
      forall k: nat | k < r.serials && !Holds(r, k)
        ensures ClosedByClient(r.effects, k)
      {
        ClosedPersists(d.effects, [OpenSocket(r.socket.value)], k);
      }
    case DisconnectCall =>
      DisconnectValid(s);
    case _ =>
      ValidWhenEffectsGrow(s, r);
  }

  lemma {:induction false} RunValid(s: Service, events: seq<Event>)
    requires Valid(s)
    ensures Valid(Run(s, events))
    decreases |events|
  {
    if |events| > 0 {
      StepValid(s, events[0]);
      RunValid(Step(s, events[0]), events[1..]);
    }
  }

  /**
    From the initial service, after any sequence of calls and callbacks, any
    socket the service has not closed is the one it holds.
   */
  lemma AtMostOneOpenSocket(events: seq<Event>, serial: nat)
    ensures var s := Run(Init(), events);
            serial < s.serials && !ClosedByClient(s.effects, serial) ==> Holds(s, serial)
  {
    RunValid(Init(), events);
  }

  /**
    Connecting to A and then to B leaves B's socket held and A's closed with
    1000 "Usuario salió" before B's was opened.
   */
  lemma ReconnectSupersedes(s: Service, a: string, b: string, token: string)
    ensures var sa := Connect(s, a, token);
            var sb := Connect(sa, b, token);
            && sb.socket == Some(Socket(s.serials + 1, Endpoint(b, token)))
            && sb.effects == sa.effects + [CloseSocket(Socket(s.serials, Endpoint(a, token)), 1000, Some("Usuario salió")),
                                           OpenSocket(Socket(s.serials + 1, Endpoint(b, token)))]
  {
  }

  /**
    No guard against a superseded socket: a chat frame reported by a socket
    the service has already closed and replaced is still emitted, and its
    failure still turns the state to `ERROR`.
   */
  lemma StaleCallbacksApply(s: Service, a: string, b: string, token: string, m: ChatMessageDto)
    requires m.kind == Some("message")
    ensures var sb := Connect(Connect(s, a, token), b, token);
            var stale := Socket(s.serials, Endpoint(a, token));
            && Step(sb, MessageReceived(stale, Some(m))).emitted == sb.emitted + [m]
            && Step(sb, Failed(stale)).state == ERROR
  {
  }
}
