/** The chat wire records and the chat domain entity. */
module ChatModels {
  import opened Optional

  /** The socket's connection state; the service starts out `DISCONNECTED`. */
  datatype ConnectionState = CONNECTED | DISCONNECTED | ERROR

  /**
    An inbound frame as Gson decodes it. Every field may be absent; `kind`
    carries the JSON key "type" and `userId` the key "user_id".
   */
  datatype ChatMessageDto = ChatMessageDto(
    kind: Option<string>,
    id: Option<string>,
    userId: Option<string>,
    username: Option<string>,
    content: Option<string>,
    createdAt: Option<string>
  )

  /** The one frame the client sends: `{"type": "send_message", "content": ...}`. */
  datatype SendMessageDto = SendMessageDto(kind: string, content: string)

  const SendMessageType: string := "send_message"

  /** `SendMessageDto(content = content)`, with the default type filled in. */
  function Outbound(content: string): (frame: SendMessageDto)
    ensures frame.kind == "send_message"
    ensures frame.content == content
  {
    SendMessageDto(SendMessageType, content)
  }

  /** A chat message as the screen shows it. */
  datatype ChatMessage = ChatMessage(
    id: string,
    userId: string,
    username: string,
    content: string,
    createdAt: string,
    isOwnMessage: bool
  )
}
