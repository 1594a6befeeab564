/**
  `AuthInterceptor.intercept`: which outgoing requests get an
  `Authorization` header. In the condition `&&` binds tighter than `||`, so
  every `/api/streams` request is stamped, with `"Bearer null"` when no token
  is stored.
 */
module AuthInterceptor {
  import opened Optional
  import opened Text

  datatype Header = Header(name: string, value: string)

  /** What the interceptor looks at and may change: the encoded path and the headers. */
  datatype Request = Request(path: string, headers: seq<Header>)

  const ProtectedSegment: string := "/protected/"
  const StreamsPrefix: string := "/api/streams"

  /** Kotlin's `"$token"`: a null token is rendered as the text "null". */
  function Interpolate(token: Option<string>): (t: string)
    ensures token.Some? ==> t == token.value
    ensures token.None? ==> t == "null"
  {
    token.GetOr("null")
  }

  /** `token != null && path.contains("/protected/") || path.contains("/api/streams")`. */
  predicate Stamps(token: Option<string>, path: string) {
    (token.Some? && Contains(path, ProtectedSegment)) || Contains(path, StreamsPrefix)
  }

  function Intercept(token: Option<string>, request: Request): (sent: Request)
    ensures sent.path == request.path
    ensures ((token.Some? && Contains(request.path, "/protected/")) || Contains(request.path, "/api/streams")) ==>
      sent.headers == request.headers + [Header("Authorization", "Bearer " + Interpolate(token))]
    ensures !((token.Some? && Contains(request.path, "/protected/")) || Contains(request.path, "/api/streams")) ==>
      sent == request
  {
    if Stamps(token, request.path) then
      request.(headers := request.headers + [Header("Authorization", "Bearer " + Interpolate(token))])
    else request
  }

  /** The request is stamped exactly when one header has been added; nothing else ever changes. */
  lemma StampedIffOneMoreHeader(token: Option<string>, request: Request)
    ensures var sent := Intercept(token, request);
            && sent.path == request.path
            && sent.headers[..|request.headers|] == request.headers
            && (|sent.headers| == |request.headers| + 1 <==> Stamps(token, request.path))
            && (|sent.headers| == |request.headers| <==> !Stamps(token, request.path))
  {
  }

  /** Without a token the only stamped requests are the stream ones, and they carry "Bearer null". */
  lemma NoTokenStampsOnlyStreams(request: Request)
    ensures Contains(request.path, StreamsPrefix) ==>
      Intercept(None, request).headers == request.headers + [Header("Authorization", "Bearer null")]
    ensures !Contains(request.path, StreamsPrefix) ==> Intercept(None, request) == request
  {
    assert "Bearer " + Interpolate(None) == "Bearer null";
  }

  /** The stream list request is stamped even before login. */
  lemma StreamListStampedWithoutToken()
    ensures Intercept(None, Request("/api/streams/", [])).headers == [Header("Authorization", "Bearer null")]
  {
    OccursAt("/api/streams/", StreamsPrefix, 0);
    assert "Bearer " + Interpolate(None) == "Bearer null";
  }

  /** `/me` is stamped with the token, and left alone when there is none. */
  lemma MeStampedOnlyWithToken(token: string)
    ensures Intercept(Some(token), Request("/api/protected/me", [])).headers == [Header("Authorization", "Bearer " + token)]
    ensures Intercept(None, Request("/api/protected/me", [])) == Request("/api/protected/me", [])
  {
    OccursAt("/api/protected/me", ProtectedSegment, 4);
    assert StreamsPrefix[5] == 's';
    MissingCharRulesOut("/api/protected/me", StreamsPrefix, 's');
  }


  /** The login path holds no 't', so the `/protected/` marker cannot occur in it. */
  lemma LoginPathNotProtected()
    ensures !Contains("/api/users/login", "/protected/")
  {
    assert "/protected/"[4] == 't';
    MissingCharRulesOut("/api/users/login", "/protected/", 't');
  }

  /** Nor can the `/api/streams` marker. */
  lemma LoginPathNotStreams()
    ensures !Contains("/api/users/login", "/api/streams")
  {
    assert "/api/streams"[6] == 't';
    MissingCharRulesOut("/api/users/login", "/api/streams", 't');
  }

  /** Login never carries a header, token or not. */
  lemma LoginNeverStamped(token: Option<string>)
    ensures Intercept(token, Request("/api/users/login", [])) == Request("/api/users/login", [])
  {
    LoginPathNotProtected();
    LoginPathNotStreams();
  }
}
