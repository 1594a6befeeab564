/** `AuthViewModel`: the `AuthState` reducer for login, register and `clearError`. */
module AuthViewModel {
  import opened Optional
  import opened AuthRepository

  datatype AuthState = AuthState(
    isLoading: bool,
    token: Option<string>,
    error: Option<string>,
    isAuthenticated: bool,
    isRegistered: bool
  )

  function Initial(): (s: AuthState)
    ensures !s.isLoading && s.token.None? && s.error.None? && !s.isAuthenticated && !s.isRegistered
  {
    AuthState(false, None, None, false, false)
  }

  /** `login` starts: loading, no error, the rest as it was. */
  function BeginLogin(s: AuthState): (r: AuthState)
    ensures r.isLoading && r.error.None?
    ensures r.token == s.token && r.isAuthenticated == s.isAuthenticated && r.isRegistered == s.isRegistered
  {
    s.(isLoading := true, error := None)
  }

  /** `login` ends: success authenticates with the token; an error shows its message; `Loading` does nothing. */
  function FinishLogin(s: AuthState, result: AuthResult): (r: AuthState)
    ensures result.Success? ==> !r.isLoading && r.token == Some(result.data) && r.isAuthenticated
                                && r.error == s.error && r.isRegistered == s.isRegistered
    ensures result.Error? ==> r == s.(isLoading := false, error := Some(result.message))
    ensures result.Loading? ==> r == s
  {
    match result
    case Success(token) => s.(isLoading := false, token := Some(token), isAuthenticated := true)
    case Error(message) => s.(isLoading := false, error := Some(message))
    case Loading => s
  }

  /** `register` starts: loading, no error, and no longer registered. */
  function BeginRegister(s: AuthState): (r: AuthState)
    ensures r.isLoading && r.error.None? && !r.isRegistered
    ensures r.token == s.token && r.isAuthenticated == s.isAuthenticated
  {
    s.(isLoading := true, error := None, isRegistered := false)
  }

  /** `register` ends: success marks registered and leaves the session fields alone. */
  function FinishRegister(s: AuthState, result: AuthResult): (r: AuthState)
    ensures result.Success? ==> !r.isLoading && r.isRegistered
                                && r.token == s.token && r.isAuthenticated == s.isAuthenticated && r.error == s.error
    ensures result.Error? ==> r == s.(isLoading := false, error := Some(result.message))
    ensures result.Loading? ==> r == s
  {
    match result
    case Success(_) => s.(isLoading := false, isRegistered := true)
    case Error(message) => s.(isLoading := false, error := Some(message))
    case Loading => s
  }

  /** `clearError()`: only the error goes. */
  function ClearError(s: AuthState): (r: AuthState)
    ensures r.error.None?
    ensures r.isLoading == s.isLoading && r.token == s.token
    ensures r.isAuthenticated == s.isAuthenticated && r.isRegistered == s.isRegistered
  {
    s.(error := None)
  }

  /**
    A whole login round: the state is authenticated with exactly the token
    the repository stored, or it shows the repository's error and is no more
    authenticated than before.
   */
  lemma LoginRoundAgreesWithStore(s: AuthState, store: Session.TokenStore,
                                  login: RemoteOutcome.Outcome<LoginResponse>, me: RemoteOutcome.Outcome<MeResponse>)
    ensures var (result, stored) := Login(store, login, me);
            var after := FinishLogin(BeginLogin(s), result);
            && !after.isLoading
            && (login.Ok? ==> after.isAuthenticated && after.token == stored.token && after.error.None?)
            && (!login.Ok? ==> after.error.Some? && after.isAuthenticated == s.isAuthenticated && after.token == s.token)
  {
  }

  /** A failed registration leaves the screen unregistered even if an earlier one had succeeded. */
  lemma FailedRegisterClearsEarlierSuccess(s: AuthState, message: string)
    ensures !FinishRegister(BeginRegister(s), Error(message)).isRegistered
  {
  }
}
