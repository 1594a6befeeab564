/**
  `ChatRepositoryImpl`: reads the credentials, drives the socket service and
  maps every emitted frame to a `ChatMessage`.
 */
module ChatRepository {
  import opened Optional
  import opened ChatModels
  import opened Session
  import ChatSocket
  import ChatMapper

  /** The message flow `connect` returns, fixed to the user id read at connect time. */
  datatype Subscription = Subscription(currentUserId: Option<string>)

  /**
    `connect(streamId)`: the stored token, or "" when none is stored, goes to
    the service; the user id is read once, and every later message is judged
    against that value.
   */
  function Connect(store: TokenStore, svc: ChatSocket.Service, streamId: string): (r: (ChatSocket.Service, Subscription))
    ensures store.token.Some? ==> r.0 == ChatSocket.Connect(svc, streamId, store.token.value)
    ensures store.token.None? ==> r.0 == ChatSocket.Connect(svc, streamId, "")
    ensures r.1.currentUserId == store.userId
  {
    var token := store.token.GetOr("");
    var svc' := ChatSocket.Connect(svc, streamId, token);
    (svc', Subscription(store.userId))
  }

  /**
    What the subscriber receives for a run of emitted frames: one message per
    frame, in the same order, since the mapper never yields null.
   */
  function Deliver(sub: Subscription, dtos: seq<ChatMessageDto>): (ms: seq<ChatMessage>)
    ensures |ms| == |dtos|
    ensures forall i :: 0 <= i < |dtos| ==> ms[i] == ChatMapper.ToDomain(dtos[i], sub.currentUserId)
    decreases |dtos|
  {
    if |dtos| == 0 then [] else Deliver(sub, dtos[..|dtos| - 1]) + [ChatMapper.ToDomain(dtos[|dtos| - 1], sub.currentUserId)]
  }

  /** Mapping commutes with concatenation: frames emitted later come later. */
  lemma DeliverConcat(sub: Subscription, a: seq<ChatMessageDto>, b: seq<ChatMessageDto>)
    ensures Deliver(sub, a + b) == Deliver(sub, a) + Deliver(sub, b)
  {
    var l, r := Deliver(sub, a + b), Deliver(sub, a) + Deliver(sub, b);
    assert |l| == |r|;
    forall i | 0 <= i < |l|
      ensures l[i] == r[i]
    {
      if i < |a| {
        assert (a + b)[i] == a[i];
      } else {
        assert (a + b)[i] == b[i - |a|];
      }
    }
  }

  /** `sendMessage(content)`: the content reaches the service unchanged. */
  function SendMessage(svc: ChatSocket.Service, content: string): (r: ChatSocket.Service)
    ensures r == ChatSocket.SendMessage(svc, content)
  {
    ChatSocket.SendMessage(svc, content)
  }

  /** `disconnect()`: delegated to the service. */
  function Disconnect(svc: ChatSocket.Service): (r: ChatSocket.Service)
    ensures r == ChatSocket.Disconnect(svc)
  {
    ChatSocket.Disconnect(svc)
  }

  /** `observeConnectionState()`: the service's state, unmodified. */
  function ObserveConnectionState(svc: ChatSocket.Service): (c: ConnectionState)
    ensures c == svc.state
  {
    svc.state
  }
}
