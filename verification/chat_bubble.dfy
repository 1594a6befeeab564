/** `ChatBubble`: own/other display decisions and the time label. */
module ChatBubble {
  import opened Optional
  import opened Text
  import opened ChatModels
  import ChatMapper

  datatype Arrangement = Start | End

  /**
    `createdAt.takeLast(9).take(5)`: the five characters starting nine from
    the end, or, for a shorter string, its first `min(5, length)` characters.
   */
  function TimeLabel(createdAt: string): (time: string)
    ensures |time| <= 5
    ensures |createdAt| >= 9 ==> time == createdAt[|createdAt| - 9..|createdAt| - 4]
    ensures |createdAt| < 9 ==> time == createdAt[..Min(5, |createdAt|)]
  {
    Take(TakeLast(createdAt, 9), 5)
  }

  /** For an instant written `<date>Thh:mm:ssZ` the label is `hh:mm`, whatever the date part. */
  lemma TimeLabelOfUtcInstant(date: string, hh: string, mm: string, ss: string)
    requires |hh| == 2 && |mm| == 2 && |ss| == 2
    ensures TimeLabel(date + "T" + hh + ":" + mm + ":" + ss + "Z") == hh + ":" + mm
  {
    var s := date + "T" + hh + ":" + mm + ":" + ss + "Z";
    assert s[|s| - 9..|s| - 4] == hh + ":" + mm;
  }

  lemma TimeLabelExamples()
    ensures TimeLabel("2024-01-01T12:34:56Z") == "12:34"
    ensures TimeLabel("") == ""
    ensures TimeLabel("12:3") == "12:3"
  {
    TimeLabelOfUtcInstant("2024-01-01", "12", "34", "56");
    assert "2024-01-01" + "T" + "12" + ":" + "34" + ":" + "56" + "Z" == "2024-01-01T12:34:56Z";
  }

  /** What one bubble shows. */
  datatype Bubble = Bubble(arrangement: Arrangement, sender: Option<string>, content: string, time: string)

  /**
    Own messages sit at the end and hide the sender; others sit at the start
    under the sender's name.
   */
  function Render(m: ChatMessage): (b: Bubble)
    ensures b.arrangement == End <==> m.isOwnMessage
    ensures b.sender.Some? <==> !m.isOwnMessage
    ensures b.sender.Some? ==> b.sender.value == m.username
    ensures b.content == m.content
    ensures b.time == TimeLabel(m.createdAt)
  {
    Bubble(
      if m.isOwnMessage then End else Start,
      if !m.isOwnMessage then Some(m.username) else None,
      m.content,
      TimeLabel(m.createdAt))
  }

  /**
    A received frame is drawn at the end, without a sender line, exactly when
    it names a sender and that sender is the current user; a frame with no
    sender is drawn under "Anónimo".
   */
  lemma RenderedOwnIffSameSender(dto: ChatMessageDto, currentUserId: Option<string>)
    ensures var b := Render(ChatMapper.ToDomain(dto, currentUserId));
            && (b.arrangement == End <==> dto.userId.Some? && currentUserId == dto.userId)
            && (dto.userId.None? && dto.username.None? ==> b.sender == Some("Anónimo"))
            && (dto.userId.None? && dto.username.Some? ==> b.sender == dto.username)
  {
  }
}
