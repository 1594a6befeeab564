/** `ChatMessageDto.toDomain(currentUserId)`: defaults for absent fields and the ownership rule. */
module ChatMapper {
  import opened Optional
  import opened ChatModels

  const AnonymousName: string := "Anónimo"

  /**
    A message is the viewer's own exactly when the frame names a sender and
    that sender is, character for character, the viewer. An absent sender is
    never the viewer, not even when the viewer is unknown too.
   */
  predicate IsOwn(senderId: Option<string>, currentUserId: Option<string>) {
    senderId.Some? && currentUserId == senderId
  }

  function ToDomain(dto: ChatMessageDto, currentUserId: Option<string>): (m: ChatMessage)
    ensures dto.id.Some? ==> m.id == dto.id.value
    ensures dto.id.None? ==> m.id == ""
    ensures dto.userId.Some? ==> m.userId == dto.userId.value
    ensures dto.userId.None? ==> m.userId == ""
    ensures dto.username.Some? ==> m.username == dto.username.value
    ensures dto.username.None? ==> m.username == "Anónimo"
    ensures dto.content.Some? ==> m.content == dto.content.value
    ensures dto.content.None? ==> m.content == ""
    ensures dto.createdAt.Some? ==> m.createdAt == dto.createdAt.value
    ensures dto.createdAt.None? ==> m.createdAt == ""
    ensures m.isOwnMessage <==> dto.userId.Some? && currentUserId.Some? && dto.userId.value == currentUserId.value
  {
    ChatMessage(
      dto.id.GetOr(""),
      dto.userId.GetOr(""),
      dto.username.GetOr(AnonymousName),
      dto.content.GetOr(""),
      dto.createdAt.GetOr(""),
      IsOwn(dto.userId, currentUserId))
  }

  /** The frame the server would send for `m`: every field present, type "message". */
  function Frame(m: ChatMessage): ChatMessageDto {
    ChatMessageDto(Some("message"), Some(m.id), Some(m.userId), Some(m.username), Some(m.content), Some(m.createdAt))
  }

  /**
    A fully populated frame maps back to the message it was built from,
    exactly when the ownership flag agrees with the viewer: the mapper adds
    nothing and loses nothing except what ownership decides.
   */
  lemma FrameRoundTrip(m: ChatMessage, currentUserId: Option<string>)
    ensures ToDomain(Frame(m), currentUserId) == m <==> m.isOwnMessage == (currentUserId == Some(m.userId))
  {
  }

  /** A frame from "user-7" read by "user-7" is own; with no current user it is not. */
  lemma OwnFrameExample()
    ensures var dto := ChatMessageDto(Some("message"), Some("1"), Some("user-7"), Some("ana"), Some("hi"), Some("2024-01-01T00:00:00Z"));
            && ToDomain(dto, Some("user-7")) == ChatMessage("1", "user-7", "ana", "hi", "2024-01-01T00:00:00Z", true)
            && !ToDomain(dto, None).isOwnMessage
  {
  }

  /** Ownership is case-sensitive: "User-7" is not "user-7". */
  lemma OwnershipCaseSensitive()
    ensures !IsOwn(Some("User-7"), Some("user-7"))
  {
    assert "User-7"[0] != "user-7"[0];
  }
}
