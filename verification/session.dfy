/** `TokenManager`'s two preference slots, as a plain record. */
module Session {
  import opened Optional

  datatype TokenStore = TokenStore(token: Option<string>, userId: Option<string>)

  /** Nothing saved yet. */
  const EmptyStore: TokenStore := TokenStore(None, None)
}
