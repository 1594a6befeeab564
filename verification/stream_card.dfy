/** `StreamCard`: ownership, the Start/Join buttons and the optional texts. */
module StreamCard {
  import opened Optional
  import opened Text
  import opened StreamModels
  import StreamMapper

  const LiveLabel: string := "🔴 En vivo"
  const OfflineLabel: string := "⚫ Offline"

  /** `stream.ownerId == currentUserId`: a `String` against a `String?`, so an unknown user owns nothing. */
  predicate IsOwner(stream: Stream, currentUserId: Option<string>) {
    currentUserId == Some(stream.ownerId)
  }

  /** `isNullOrEmpty()`, negated: only the empty string is hidden, a blank one is shown. */
  function Shown(s: Option<string>): (r: Option<string>)
    ensures r.Some? <==> s.Some? && s.value != ""
    ensures r.Some? ==> r == s
  {
    if s.Some? && s.value != "" then s else None
  }

  /** What a card shows; a button carries the id its callback receives. */
  datatype Card = Card(
    thumbnail: Option<string>,
    title: string,
    description: Option<string>,
    status: string,
    category: Option<string>,
    startButton: Option<string>,
    joinButton: Option<string>
  )

  function Render(stream: Stream, currentUserId: Option<string>): (c: Card)
    ensures c.startButton.Some? <==> !stream.isLive && currentUserId == Some(stream.ownerId)
    ensures c.joinButton.Some? <==> stream.isLive
    ensures c.startButton.Some? ==> c.startButton.value == stream.id
    ensures c.joinButton.Some? ==> c.joinButton.value == stream.id
    ensures stream.isLive ==> c.status == "🔴 En vivo"
    ensures !stream.isLive ==> c.status == "⚫ Offline"
    ensures c.description.Some? <==> stream.description.Some? && stream.description.value != ""
    ensures c.category.Some? <==> stream.category.Some? && stream.category.value != ""
    ensures c.thumbnail.Some? <==> stream.thumbnailUrl.Some? && stream.thumbnailUrl.value != ""
    ensures c.title == stream.title
  {
    Card(
      Shown(stream.thumbnailUrl),
      stream.title,
      Shown(stream.description),
      if stream.isLive then LiveLabel else OfflineLabel,
      Shown(stream.category),
      if !stream.isLive && IsOwner(stream, currentUserId) then Some(stream.id) else None,
      if stream.isLive then Some(stream.id) else None)
  }

  /** Start and Join are never offered together, and exactly one is offered to an owner. */
  lemma AtMostOneButton(stream: Stream, currentUserId: Option<string>)
    ensures var c := Render(stream, currentUserId);
            && !(c.startButton.Some? && c.joinButton.Some?)
            && (IsOwner(stream, currentUserId) ==> c.startButton.Some? || c.joinButton.Some?)
  {
  }

  /** A viewer whose id is unknown never sees Start. */
  lemma UnknownUserNeverStarts(stream: Stream)
    ensures Render(stream, None).startButton.None?
  {
  }

  /**
    On a mapped stream the optional texts are shown exactly when present:
    the mapper already dropped the blank ones the card alone would show.
   */
  lemma MappedOptionalTextsShownIffPresent(r: StreamResponse, fallbackId: string, currentUserId: Option<string>)
    ensures var s := StreamMapper.ToDomain(r, fallbackId);
            var c := Render(s, currentUserId);
            && (c.description.Some? <==> s.description.Some?)
            && (c.category.Some? <==> s.category.Some?)
            && (c.thumbnail.Some? <==> s.thumbnailUrl.Some?)
  {
  }

  /** A stream whose owner is absent or blank maps to owner "", which a viewer with id "" would own. */
  lemma OwnerlessStreamOwnedByEmptyId(r: StreamResponse, fallbackId: string)
    requires r.ownerId.None? || Text.IsBlank(r.ownerId.value)
    ensures IsOwner(StreamMapper.ToDomain(r, fallbackId), Some(""))
    ensures !IsOwner(StreamMapper.ToDomain(r, fallbackId), None)
  {
  }
}
