/**
  `AuthRepositoryImpl`: login and register as functions of the remote
  outcomes and the stored session. Login stores the token it receives and
  then, best effort, the user id `/me` reports.
 */
module AuthRepository {
  import opened Optional
  import opened RemoteOutcome
  import opened Session
  import AuthInterceptor

  datatype AuthResult = Success(data: string) | Error(message: string) | Loading

  datatype LoginResponse = LoginResponse(token: string)

  /** The `/api/protected/me` reply; only its `userId` is read. */
  datatype MeResponse = MeResponse(userId: string)

  datatype RegisterResponse = RegisterResponse(
    id: Option<string>,
    username: Option<string>,
    email: Option<string>,
    createdAt: Option<string>,
    message: Option<string>
  )

  const RegisteredText: string := "Registro exitoso"

  /**
    `login(email, password)`. The `/me` outcome is only consulted once the
    login call has succeeded; its failure is swallowed.
   */
  function Login(store: TokenStore, login: Outcome<LoginResponse>, me: Outcome<MeResponse>): (r: (AuthResult, TokenStore))
    ensures login.Ok? ==> r.0 == Success(login.value.token) && r.1.token == Some(login.value.token)
    ensures login.Ok? && me.Ok? ==> r.1.userId == Some(me.value.userId)
    ensures login.Ok? && !me.Ok? ==> r.1.userId == store.userId
    ensures !login.Ok? ==> r.1 == store && r.0 == Error(FailureMessage(login))
    ensures !r.0.Loading?
  {
    match login
    case Ok(resp) =>
      var withToken := store.(token := Some(resp.token));
      var stored := if me.Ok? then withToken.(userId := Some(me.value.userId)) else withToken;
      (Success(resp.token), stored)
    case _ => (Error(FailureMessage(login)), store)
  }

  /** `register(...)`: the id, else the email, else "Registro exitoso"; the session is never touched. */
  function Register(store: TokenStore, o: Outcome<RegisterResponse>): (r: (AuthResult, TokenStore))
    ensures r.1 == store
    ensures !r.0.Loading?
    ensures o.Ok? <==> r.0.Success?
    ensures o.Ok? && o.value.id.Some? ==> r.0.data == o.value.id.value
    ensures o.Ok? && o.value.id.None? && o.value.email.Some? ==> r.0.data == o.value.email.value
    ensures o.Ok? && o.value.id.None? && o.value.email.None? ==> r.0.data == "Registro exitoso"
    ensures !o.Ok? ==> r.0 == Error(FailureMessage(o))
  {
    match o
    case Ok(resp) => (Success(resp.id.GetOr(resp.email.GetOr(RegisteredText))), store)
    case _ => (Error(FailureMessage(o)), store)
  }

  /**
    A login whose `/me` call fails keeps whatever user id was stored before,
    so the new token is paired with the previous account's id.
   */
  lemma MeFailureKeepsPreviousUser(previousUser: string, oldToken: Option<string>, token: string, me: Outcome<MeResponse>)
    requires !me.Ok?
    ensures Login(TokenStore(oldToken, Some(previousUser)), Ok(LoginResponse(token)), me).1
              == TokenStore(Some(token), Some(previousUser))
  {
  }

  /** Logging in twice with the same replies stores the same session as logging in once. */
  lemma LoginIdempotent(store: TokenStore, login: Outcome<LoginResponse>, me: Outcome<MeResponse>)
    ensures Login(Login(store, login, me).1, login, me) == Login(store, login, me)
  {
  }

  /**
    The token is saved before `/me` is called, and the interceptor reads the
    session, so the `/me` request carries the token just received.
   */
  lemma MeCallCarriesNewToken(store: TokenStore, token: string)
    ensures var withToken := store.(token := Some(token));
            && withToken == Login(store, Ok(LoginResponse(token)), Other(None)).1
            && AuthInterceptor.Intercept(withToken.token, AuthInterceptor.Request("/api/protected/me", [])).headers
                 == [AuthInterceptor.Header("Authorization", "Bearer " + token)]
  {
    AuthInterceptor.MeStampedOnlyWithToken(token);
  }
}
