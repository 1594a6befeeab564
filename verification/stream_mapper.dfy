/**
  `StreamResponse.toDomain()`: blank text falls back to defaults. The random
  UUID used for a blank id is supplied by the caller as `fallbackId`.
 */
module StreamMapper {
  import opened Optional
  import opened Text
  import opened StreamModels

  const UntitledTitle: string := "Sin título"

  /** `s?.takeIf { it.isNotBlank() }`. */
  function NonBlank(s: Option<string>): (r: Option<string>)
    ensures r.Some? <==> s.Some? && !IsBlank(s.value)
    ensures r.Some? ==> r == s
  {
    if s.Some? && !IsBlank(s.value) then s else None
  }

  function ToDomain(r: StreamResponse, fallbackId: string): (s: Stream)
    ensures r.id.Some? && !IsBlank(r.id.value) ==> s.id == r.id.value
    ensures !(r.id.Some? && !IsBlank(r.id.value)) ==> s.id == fallbackId
    ensures r.title.Some? && !IsBlank(r.title.value) ==> s.title == r.title.value
    ensures !(r.title.Some? && !IsBlank(r.title.value)) ==> s.title == "Sin título"
    ensures !IsBlank(s.title)
    ensures s.description.Some? <==> r.description.Some? && !IsBlank(r.description.value)
    ensures s.description.Some? ==> s.description == r.description
    ensures s.thumbnailUrl.Some? <==> r.thumbnailUrl.Some? && !IsBlank(r.thumbnailUrl.value)
    ensures s.thumbnailUrl.Some? ==> s.thumbnailUrl == r.thumbnailUrl
    ensures s.category.Some? <==> r.category.Some? && !IsBlank(r.category.value)
    ensures s.category.Some? ==> s.category == r.category
    ensures r.ownerId.Some? && !IsBlank(r.ownerId.value) ==> s.ownerId == r.ownerId.value
    ensures !(r.ownerId.Some? && !IsBlank(r.ownerId.value)) ==> s.ownerId == ""
    ensures s.viewersCount == r.viewersCount && s.isLive == r.isLive && s.startedAt == r.startedAt
    ensures r.createdAt.Some? ==> s.createdAt == r.createdAt.value
    ensures r.createdAt.None? ==> s.createdAt == ""
  {
    assert UntitledTitle[0] == 'S';
    Stream(
      NonBlank(r.id).GetOr(fallbackId),
      NonBlank(r.title).GetOr(UntitledTitle),
      NonBlank(r.description),
      NonBlank(r.thumbnailUrl),
      NonBlank(r.category),
      NonBlank(r.ownerId).GetOr(""),
      r.viewersCount,
      r.isLive,
      r.startedAt,
      r.createdAt.GetOr(""))
  }

  predicate AbsentOrNonBlank(s: Option<string>) {
    s.None? || !IsBlank(s.value)
  }

  /**
    The shape every mapped stream has: id and title are not blank, the
    optional texts are absent or not blank, and the owner is "" or not blank.
   */
  predicate Normalized(s: Stream) {
    && !IsBlank(s.id)
    && !IsBlank(s.title)
    && AbsentOrNonBlank(s.description)
    && AbsentOrNonBlank(s.thumbnailUrl)
    && AbsentOrNonBlank(s.category)
    && (s.ownerId == "" || !IsBlank(s.ownerId))
  }

  /** The response a server would send for `s`: every text present as is. */
  function Embed(s: Stream): StreamResponse {
    StreamResponse(Some(s.id), Some(s.title), s.description, s.thumbnailUrl, s.category,
                   Some(s.ownerId), s.viewersCount, s.isLive, s.startedAt, Some(s.createdAt))
  }

  /** With a non-blank fallback (a UUID always is), every mapped stream is normalized. */
  lemma MappedIsNormalized(r: StreamResponse, fallbackId: string)
    requires !IsBlank(fallbackId)
    ensures Normalized(ToDomain(r, fallbackId))
  {
  }

  /**
    The mapper fixes exactly the normalized streams: sending one over the wire
    and mapping it back gives it back, and nothing else comes back unchanged.
   */
  lemma NormalizedIffFixed(s: Stream, fallbackId: string)
    requires !IsBlank(fallbackId)
    ensures ToDomain(Embed(s), fallbackId) == s <==> Normalized(s)
  {
    assert UntitledTitle[0] == 'S';
  }

  /** Mapping is idempotent: a mapped stream maps to itself, whatever fallback is drawn the second time. */
  lemma MapIdempotent(r: StreamResponse, fallbackId: string, laterFallbackId: string)
    requires !IsBlank(fallbackId) && !IsBlank(laterFallbackId)
    ensures ToDomain(Embed(ToDomain(r, fallbackId)), laterFallbackId) == ToDomain(r, fallbackId)
  {
    MappedIsNormalized(r, fallbackId);
    NormalizedIffFixed(ToDomain(r, fallbackId), laterFallbackId);
  }
}
