# Streamhub client core in Dafny

Streamhub is an Android client for a live-streaming service. Users log in,
browse and create streams, start their own streams, join live ones and chat
over a WebSocket. A small posts demo screen is also included. This project
models the deterministic rules of that client as immutable records, pure
functions and step functions. It proves what those rules guarantee.

The model has four areas.

- **Chat pipeline.** `ChatSocket` models `ChatWebSocketService` as a step
  machine over calls and listener callbacks. It keeps a log of the socket
  operations it requests and a log of the frames it emits.
  `ChatMapper`, `ChatRepository`, `ChatViewModel`, `ChatInput`,
  `ChatBubble` and `StreamScreen` model the layers above it.
- **Stream directory.** `StreamMapper` models the blank-to-default mapping.
  `RemoteOutcome` holds the shared "Error code: body" formatting.
  `StreamRepository`, `StreamViewModel` and `StreamCard` model the
  repository, the screen state and the card.
- **Auth.** The modules are `AuthInterceptor`, `AuthRepository` (over the
  two-slot `Session.TokenStore`), `AuthViewModel`, `RegisterForm` and
  `UserMapper`.
- **Posts demo.** `Posts` models the use case's filter and its
  empty-is-failure rule, and the screen-state fold.

`Text` holds Kotlin's `isBlank`, `trim`, `take`, `takeLast`,
`contains` and decimal rendering of numbers. Whitespace is the JVM's
`Char.isWhitespace` set.

A remote call is modelled as an `Outcome`. It either returns a value, or
fails with an HTTP status and optional error body, or fails with some other
exception and its optional message. Socket I/O and JSON decoding are inputs
to the model: a received frame is a decoded DTO, or nothing when decoding
failed. `UUID.randomUUID()` is replaced by a fallback id that the caller
passes in.

The service has no guard against callbacks from a superseded socket. Such
frames are still delivered and such failures still set `ERROR`
(`ChatSocket.StaleCallbacksApply`).

## Model

| member | source | states |
|---|---|---|
| ChatSocket.Init | app/src/main/java/com/valencia/streamhub/features/streams/data/datasources/remote/ChatWebSocketService.kt:28-34 | A new service holds no socket, is DISCONNECTED, has emitted nothing and satisfies the one-live-socket invariant |
| ChatSocket.Endpoint | app/src/main/java/com/valencia/streamhub/features/streams/data/datasources/remote/ChatWebSocketService.kt:39 | The URL is "ws://10.0.2.2:8080/ws/chat/", then the stream id verbatim, then "?token=", then the token verbatim, with nothing else |
| ChatSocket.EndpointRoundTrip | app/src/main/java/com/valencia/streamhub/features/streams/data/datasources/remote/ChatWebSocketService.kt:39 | When the stream id has no '?', splitting the URL at its first '?' recovers the stream id and the token |
| ChatSocket.EndpointAmbiguous | app/src/main/java/com/valencia/streamhub/features/streams/data/datasources/remote/ChatWebSocketService.kt:39 | Without escaping, two different (streamId, token) pairs give the same URL |
| ChatSocket.Disconnect | app/src/main/java/com/valencia/streamhub/features/streams/data/datasources/remote/ChatWebSocketService.kt:89-93 | Afterwards no socket is held and the state is DISCONNECTED. A held socket is closed with 1000 "Usuario salió"; with none, nothing is requested |
| ChatSocket.DisconnectIdempotent | app/src/main/java/com/valencia/streamhub/features/streams/data/datasources/remote/ChatWebSocketService.kt:89-93 | Disconnecting twice is the same as disconnecting once |
| ChatSocket.Connect | app/src/main/java/com/valencia/streamhub/features/streams/data/datasources/remote/ChatWebSocketService.kt:36-46 | Closes any held socket first (1000, "Usuario salió"), then opens a new socket on the endpoint URL and holds it. The state is DISCONNECTED until Open arrives |
| ChatSocket.SendMessage | app/src/main/java/com/valencia/streamhub/features/streams/data/datasources/remote/ChatWebSocketService.kt:82-87 | Exactly one {type:"send_message", content} frame goes to the held socket whatever the connection state. With no socket nothing happens |
| ChatSocket.Receive | app/src/main/java/com/valencia/streamhub/features/streams/data/datasources/remote/ChatWebSocketService.kt:52-62 | A frame is appended to the emitted log iff it decoded and its type is exactly "message". Nothing else changes |
| ChatSocket.Step | app/src/main/java/com/valencia/streamhub/features/streams/data/datasources/remote/ChatWebSocketService.kt:36-93 | Open gives CONNECTED; Closing, Closed, connect and disconnect give DISCONNECTED; Failure gives ERROR, whatever the prior state. Closing requests close(1000, null). Callbacks never touch the held socket. The effect log only grows |
| ChatSocket.RunEmitsChatFramesInOrder | app/src/main/java/com/valencia/streamhub/features/streams/data/datasources/remote/ChatWebSocketService.kt:52-62 | Over any event sequence, the emitted log grows by exactly the chat frames received, in arrival order |
| ChatSocket.GarbageBetweenFramesIsDropped | app/src/main/java/com/valencia/streamhub/features/streams/data/datasources/remote/ChatWebSocketService.kt:54-61 | An undecodable frame between two chat frames leaves no trace |
| ChatSocket.StepValid | app/src/main/java/com/valencia/streamhub/features/streams/data/datasources/remote/ChatWebSocketService.kt:36-93 | Every transition keeps the invariant that the held socket is the newest and every older socket was closed by the client |
| ChatSocket.RunValid | app/src/main/java/com/valencia/streamhub/features/streams/data/datasources/remote/ChatWebSocketService.kt:36-93 | The invariant holds after any sequence of events |
| ChatSocket.AtMostOneOpenSocket | app/src/main/java/com/valencia/streamhub/features/streams/data/datasources/remote/ChatWebSocketService.kt:36-37 | From a new service, every socket the client has not closed is the held one |
| ChatSocket.ReconnectSupersedes | app/src/main/java/com/valencia/streamhub/features/streams/data/datasources/remote/ChatWebSocketService.kt:36-46 | A second connect closes the first socket before opening the second, which becomes the held one |
| ChatSocket.StaleCallbacksApply | app/src/main/java/com/valencia/streamhub/features/streams/data/datasources/remote/ChatWebSocketService.kt:46-78 | A replaced socket's chat frame is still emitted and its failure still sets ERROR |
| ChatModels.Outbound | app/src/main/java/com/valencia/streamhub/features/streams/data/datasources/remote/model/ChatModels.kt:14-17 | The outgoing frame has type "send_message" and carries the content unchanged |
| ChatMapper.ToDomain | app/src/main/java/com/valencia/streamhub/features/streams/data/datasources/remote/mapper/ChatMapper.kt:6-13 | Present fields are copied. Absent id, userId, content and createdAt become "", an absent username becomes "Anónimo". Own iff the DTO userId is present and equal to the current user id |
| ChatMapper.FrameRoundTrip | app/src/main/java/com/valencia/streamhub/features/streams/data/datasources/remote/mapper/ChatMapper.kt:6-13 | A message sent as a full frame maps back to itself iff its ownership flag agrees with the current user |
| ChatMapper.OwnFrameExample | app/src/main/java/com/valencia/streamhub/features/streams/data/datasources/remote/mapper/ChatMapper.kt:12 | A frame from "user-7" read by "user-7" is own; with no current user it is not |
| ChatMapper.OwnershipCaseSensitive | app/src/main/java/com/valencia/streamhub/features/streams/data/datasources/remote/mapper/ChatMapper.kt:12 | "User-7" is not "user-7": the comparison is case-sensitive |
| ChatRepository.Connect | app/src/main/java/com/valencia/streamhub/features/streams/data/repositories/ChatRepositoryImpl.kt:19-26 | Connects with the stored token, or "" when none is stored. The user id is captured once, at connect time |
| ChatRepository.Deliver | app/src/main/java/com/valencia/streamhub/features/streams/data/repositories/ChatRepositoryImpl.kt:23-25 | Each emitted DTO yields exactly one message, mapped with the captured user id, in the same order |
| ChatRepository.DeliverConcat | app/src/main/java/com/valencia/streamhub/features/streams/data/repositories/ChatRepositoryImpl.kt:23-25 | Delivering two batches is delivering their concatenation |
| ChatRepository.SendMessage | app/src/main/java/com/valencia/streamhub/features/streams/data/repositories/ChatRepositoryImpl.kt:28-30 | The content reaches the service unchanged |
| ChatRepository.Disconnect | app/src/main/java/com/valencia/streamhub/features/streams/data/repositories/ChatRepositoryImpl.kt:32-34 | Delegates to the service's disconnect |
| ChatRepository.ObserveConnectionState | app/src/main/java/com/valencia/streamhub/features/streams/data/repositories/ChatRepositoryImpl.kt:36-38 | The service's state, unmodified |
| ChatViewModel.Initial | app/src/main/java/com/valencia/streamhub/features/streams/presentation/viewmodels/ChatViewModel.kt:18-22 | Empty log, not connected, no error |
| ChatViewModel.Start | app/src/main/java/com/valencia/streamhub/features/streams/presentation/viewmodels/ChatViewModel.kt:33-42 | A missing streamId means ""; only a non-empty one connects |
| ChatViewModel.OnConnectionState | app/src/main/java/com/valencia/streamhub/features/streams/presentation/viewmodels/ChatViewModel.kt:47-51 | isConnected iff CONNECTED. ERROR sets "Error de conexión" and every other state clears the error. The log is untouched |
| ChatViewModel.OnMessage | app/src/main/java/com/valencia/streamhub/features/streams/presentation/viewmodels/ChatViewModel.kt:56-61 | Appends at the end (length + 1, old log a prefix), flags untouched |
| ChatViewModel.CollectAppendsInOrder | app/src/main/java/com/valencia/streamhub/features/streams/presentation/viewmodels/ChatViewModel.kt:47-61 | Any interleaving of updates leaves the old log followed by the delivered messages in order |
| ChatViewModel.CollectTracksLastState | app/src/main/java/com/valencia/streamhub/features/streams/presentation/viewmodels/ChatViewModel.kt:47-51 | The flags depend only on the last connection state: connected iff it is CONNECTED, error "Error de conexión" iff it is ERROR and none otherwise; with no state update both keep their values, and messages never change them |
| ChatViewModel.SendMessage | app/src/main/java/com/valencia/streamhub/features/streams/presentation/viewmodels/ChatViewModel.kt:65-69 | Forwards the trimmed content iff it is not blank. What is forwarded is non-empty with no whitespace at either end |
| ChatViewModel.Send | app/src/main/java/com/valencia/streamhub/features/streams/presentation/viewmodels/ChatViewModel.kt:65-69 | Blank content never reaches the service; other content reaches it trimmed |
| ChatViewModel.OnCleared | app/src/main/java/com/valencia/streamhub/features/streams/presentation/viewmodels/ChatViewModel.kt:71-74 | Always disconnects: no socket held, DISCONNECTED |
| ChatViewModel.ArrivalOrderReachesLog | app/src/main/java/com/valencia/streamhub/features/streams/presentation/viewmodels/ChatViewModel.kt:56-61 | End to end, the screen log grows by the received chat frames, mapped one to one, in arrival order |
| ChatViewModel.ConnectOpenReceiveScenario | app/src/main/java/com/valencia/streamhub/features/streams/presentation/viewmodels/ChatViewModel.kt:38-61 | Connecting to "stream-42" as "user-7", opening and receiving an own frame shows one own message and "connected" |
| ChatInput.OnClick | app/src/main/java/com/valencia/streamhub/features/streams/presentation/components/ChatInput.kt:47-52 | Non-blank text is passed on untrimmed and the field is cleared; a click on blank text does nothing |
| ChatInput.Press | app/src/main/java/com/valencia/streamhub/features/streams/presentation/components/ChatInput.kt:46-53 | Text is sent iff the input is enabled and the text is not blank |
| ChatInput.PressTwiceSendsOnce | app/src/main/java/com/valencia/streamhub/features/streams/presentation/components/ChatInput.kt:47-53 | A press right after a send sends nothing |
| ChatBubble.TimeLabel | app/src/main/java/com/valencia/streamhub/features/streams/presentation/components/ChatBubble.kt:66 | At most 5 characters: the five starting nine from the end, or the first min(5, length) of a shorter string |
| ChatBubble.TimeLabelOfUtcInstant | app/src/main/java/com/valencia/streamhub/features/streams/presentation/components/ChatBubble.kt:66 | For "<date>Thh:mm:ssZ" the label is "hh:mm" |
| ChatBubble.TimeLabelExamples | app/src/main/java/com/valencia/streamhub/features/streams/presentation/components/ChatBubble.kt:66 | "2024-01-01T12:34:56Z" gives "12:34"; "" gives ""; "12:3" gives "12:3" |
| ChatBubble.Render | app/src/main/java/com/valencia/streamhub/features/streams/presentation/components/ChatBubble.kt:31-66 | Own messages are aligned End with no sender line; others are aligned Start under their username |
| ChatBubble.RenderedOwnIffSameSender | app/src/main/java/com/valencia/streamhub/features/streams/presentation/components/ChatBubble.kt:31-56 | A received frame is drawn at the end with no sender line iff it names a sender equal to the current user; a frame without a sender id is never own and shows its username, or "Anónimo" |
| StreamScreen.PressSend | app/src/main/java/com/valencia/streamhub/features/streams/presentation/screens/StreamScreen.kt:148-151 | A frame reaches the socket iff the screen shows connected, the text is not blank and a socket is held. It carries the trimmed text |
| RemoteOutcome.HttpErrorMessage | app/src/main/java/com/valencia/streamhub/features/streams/data/repositories/StreamRepositoryImpl.kt:20-22 | "Error c: body", or "Error c: Error HTTP c" without a body |
| RemoteOutcome.FailureMessage | app/src/main/java/com/valencia/streamhub/features/streams/data/repositories/StreamRepositoryImpl.kt:20-25 | HTTP failures use the text above; other failures give their message or "Error desconocido" |
| RemoteOutcome.HttpCodeRecoverable | app/src/main/java/com/valencia/streamhub/features/streams/data/repositories/StreamRepositoryImpl.kt:20-22 | The status code can be read back from the error text whatever the body |
| StreamMapper.NonBlank | app/src/main/java/com/valencia/streamhub/features/streams/data/datasources/remote/mapper/StreamMapper.kt:10-12 | Present iff the input is present and not blank, and then unchanged |
| StreamMapper.ToDomain | app/src/main/java/com/valencia/streamhub/features/streams/data/datasources/remote/mapper/StreamMapper.kt:7-18 | Blank or absent id gives the fallback id; title gives "Sin título" (never blank); description, thumbnail and category give absent; owner gives "". viewersCount, isLive and startedAt are copied; a null createdAt gives "" |
| StreamMapper.MappedIsNormalized | app/src/main/java/com/valencia/streamhub/features/streams/data/datasources/remote/mapper/StreamMapper.kt:7-18 | With a non-blank fallback every mapped stream has non-blank id and title, and no blank optional text |
| StreamMapper.NormalizedIffFixed | app/src/main/java/com/valencia/streamhub/features/streams/data/datasources/remote/mapper/StreamMapper.kt:7-18 | Sending a stream and mapping it back returns it iff it is normalized |
| StreamMapper.MapIdempotent | app/src/main/java/com/valencia/streamhub/features/streams/data/datasources/remote/mapper/StreamMapper.kt:7-18 | Mapping a mapped stream again changes nothing |
| StreamRepository.MapAll | app/src/main/java/com/valencia/streamhub/features/streams/data/repositories/StreamRepositoryImpl.kt:19 | Same length; element i is element i mapped |
| StreamRepository.GetStreams | app/src/main/java/com/valencia/streamhub/features/streams/data/repositories/StreamRepositoryImpl.kt:16-26 | Never Loading. Success iff the call returned, with the list mapped in place. Failures carry the HTTP text or the exception message |
| StreamRepository.CreateStream | app/src/main/java/com/valencia/streamhub/features/streams/data/repositories/StreamRepositoryImpl.kt:28-45 | Success with the mapped stream iff the call returned, else the failure message |
| StreamRepository.StartStream | app/src/main/java/com/valencia/streamhub/features/streams/data/repositories/StreamRepositoryImpl.kt:47-57 | Success with the server's message iff the call returned, else the failure message |
| StreamRepository.JoinStream | app/src/main/java/com/valencia/streamhub/features/streams/data/repositories/StreamRepositoryImpl.kt:59-69 | Success with the server's message iff the call returned, else the failure message |
| StreamRepository.HttpFailureKeepsCode | app/src/main/java/com/valencia/streamhub/features/streams/data/repositories/StreamRepositoryImpl.kt:20-22 | An HTTP failure's message names its status code |
| StreamViewModel.Initial | app/src/main/java/com/valencia/streamhub/features/streams/presentation/viewmodels/StreamViewModel.kt:18-25 | No streams, not loading, no error, no flags |
| StreamViewModel.BeginLoad | app/src/main/java/com/valencia/streamhub/features/streams/presentation/viewmodels/StreamViewModel.kt:47 | Loading, no error, streams and flags unchanged |
| StreamViewModel.FinishLoad | app/src/main/java/com/valencia/streamhub/features/streams/presentation/viewmodels/StreamViewModel.kt:49-66 | Success replaces the list and stops loading. Error stops loading and shows the message, keeping the list. Loading changes nothing. Flags are never touched |
| StreamViewModel.BeginAction | app/src/main/java/com/valencia/streamhub/features/streams/presentation/viewmodels/StreamViewModel.kt:72-124 | Loading, no error, only the action's own flag reset |
| StreamViewModel.FinishAction | app/src/main/java/com/valencia/streamhub/features/streams/presentation/viewmodels/StreamViewModel.kt:73-88 | Success raises the action's flag, stops loading and triggers a reload. Error shows the message and keeps list and flags. Loading changes nothing |
| StreamViewModel.ClearError | app/src/main/java/com/valencia/streamhub/features/streams/presentation/viewmodels/StreamViewModel.kt:114-116 | Only the error is cleared |
| StreamViewModel.ResetCreated | app/src/main/java/com/valencia/streamhub/features/streams/presentation/viewmodels/StreamViewModel.kt:118-120 | Only isCreated is cleared |
| StreamViewModel.SuccessfulActionThenReload | app/src/main/java/com/valencia/streamhub/features/streams/presentation/viewmodels/StreamViewModel.kt:74-80 | After a successful action and its reload the flag is still raised; the reload's list or error is shown |
| StreamViewModel.SetFlag | app/src/main/java/com/valencia/streamhub/features/streams/presentation/viewmodels/StreamViewModel.kt:72-124 | Sets one action's flag and leaves every other field alone |
| StreamCard.Shown | app/src/main/java/com/valencia/streamhub/features/streams/presentation/components/StreamCard.kt:66 | An optional text is shown iff it is present and non-empty (a blank one is shown) |
| StreamCard.Render | app/src/main/java/com/valencia/streamhub/features/streams/presentation/components/StreamCard.kt:39-127 | Start iff offline and owner, Join iff live, both carrying the stream id. Status "🔴 En vivo" iff live, else "⚫ Offline". Thumbnail, description and category shown iff non-empty |
| StreamCard.AtMostOneButton | app/src/main/java/com/valencia/streamhub/features/streams/presentation/components/StreamCard.kt:99-127 | Never both buttons; an owner always gets one |
| StreamCard.UnknownUserNeverStarts | app/src/main/java/com/valencia/streamhub/features/streams/presentation/components/StreamCard.kt:39 | With a null current user, Start is never shown |
| StreamCard.MappedOptionalTextsShownIffPresent | app/src/main/java/com/valencia/streamhub/features/streams/presentation/components/StreamCard.kt:48-88 | On a mapped stream, optional texts are shown exactly when present |
| StreamCard.OwnerlessStreamOwnedByEmptyId | app/src/main/java/com/valencia/streamhub/features/streams/presentation/components/StreamCard.kt:39 | A stream whose owner is absent or blank (whitespace only) is "owned" by a user whose id is "", and by no user when the current id is null |
| AuthInterceptor.Interpolate | app/src/main/java/com/valencia/streamhub/features/users/data/datasources/remote/AuthInterceptor.kt:13 | A null token is rendered as "null" |
| AuthInterceptor.Intercept | app/src/main/java/com/valencia/streamhub/features/users/data/datasources/remote/AuthInterceptor.kt:6-19 | Adds "Authorization: Bearer <token>" iff (token present and path contains "/protected/") or path contains "/api/streams". Otherwise the request is untouched |
| AuthInterceptor.StampedIffOneMoreHeader | app/src/main/java/com/valencia/streamhub/features/users/data/datasources/remote/AuthInterceptor.kt:11-17 | Exactly one header is appended iff the request is stamped; the path and earlier headers never change |
| AuthInterceptor.NoTokenStampsOnlyStreams | app/src/main/java/com/valencia/streamhub/features/users/data/datasources/remote/AuthInterceptor.kt:11-17 | With no token, only "/api/streams" paths are stamped, with "Bearer null" |
| AuthInterceptor.StreamListStampedWithoutToken | app/src/main/java/com/valencia/streamhub/features/users/data/datasources/remote/AuthInterceptor.kt:11-13 | "/api/streams/" gets "Bearer null" before login |
| AuthInterceptor.MeStampedOnlyWithToken | app/src/main/java/com/valencia/streamhub/features/users/data/datasources/remote/AuthInterceptor.kt:11-17 | "/api/protected/me" is stamped with the token, and untouched when there is none |
| AuthInterceptor.LoginNeverStamped | app/src/main/java/com/valencia/streamhub/features/users/data/datasources/remote/AuthInterceptor.kt:11-17 | "/api/users/login" never carries a header, token or not |
| AuthRepository.Login | app/src/main/java/com/valencia/streamhub/features/users/data/repositories/AuthRepositoryImpl.kt:18-37 | Success(token) and the token is stored. A successful /me stores its user id; a failed /me leaves it. A failed login stores nothing and returns the failure message |
| AuthRepository.Register | app/src/main/java/com/valencia/streamhub/features/users/data/repositories/AuthRepositoryImpl.kt:39-51 | The payload is id, else email, else "Registro exitoso". Failures use the shared text. The session is never touched |
| AuthRepository.MeFailureKeepsPreviousUser | app/src/main/java/com/valencia/streamhub/features/users/data/repositories/AuthRepositoryImpl.kt:23-29 | A failed /me pairs the new token with the previously stored user id |
| AuthRepository.LoginIdempotent | app/src/main/java/com/valencia/streamhub/features/users/data/repositories/AuthRepositoryImpl.kt:18-37 | Repeating a login with the same replies changes nothing further |
| AuthRepository.MeCallCarriesNewToken | app/src/main/java/com/valencia/streamhub/features/users/data/repositories/AuthRepositoryImpl.kt:21-24 | The token is saved before /me, so the /me request carries it |
| AuthViewModel.Initial | app/src/main/java/com/valencia/streamhub/features/users/presentation/viewmodels/AuthViewModel.kt:14-20 | All defaults |
| AuthViewModel.BeginLogin | app/src/main/java/com/valencia/streamhub/features/users/presentation/viewmodels/AuthViewModel.kt:33 | Loading, no error, other fields unchanged |
| AuthViewModel.FinishLogin | app/src/main/java/com/valencia/streamhub/features/users/presentation/viewmodels/AuthViewModel.kt:34-49 | Success sets token and authenticated. Error stops loading and shows the message, changing nothing else. Loading changes nothing |
| AuthViewModel.BeginRegister | app/src/main/java/com/valencia/streamhub/features/users/presentation/viewmodels/AuthViewModel.kt:55 | Loading, no error, isRegistered reset |
| AuthViewModel.FinishRegister | app/src/main/java/com/valencia/streamhub/features/users/presentation/viewmodels/AuthViewModel.kt:56-70 | Success sets isRegistered, with token and isAuthenticated untouched. Error and Loading are as for login |
| AuthViewModel.ClearError | app/src/main/java/com/valencia/streamhub/features/users/presentation/viewmodels/AuthViewModel.kt:74-76 | Only the error is cleared |
| AuthViewModel.LoginRoundAgreesWithStore | app/src/main/java/com/valencia/streamhub/features/users/presentation/viewmodels/AuthViewModel.kt:31-51 | After a login round the screen holds exactly the stored token, or shows the error and is no more authenticated than before |
| AuthViewModel.FailedRegisterClearsEarlierSuccess | app/src/main/java/com/valencia/streamhub/features/users/presentation/viewmodels/AuthViewModel.kt:55-67 | A failed registration leaves isRegistered false |
| RegisterForm.OnClick | app/src/main/java/com/valencia/streamhub/features/users/presentation/screens/RegisterScreen.kt:152-166 | Checks run in order (username, email, password, match) and the first failure is reported. Submit iff all are non-empty and the passwords match |
| RegisterForm.OneOutcomePerClick | app/src/main/java/com/valencia/streamhub/features/users/presentation/screens/RegisterScreen.kt:152-166 | Every click submits or shows one of the four messages |
| RegisterForm.MismatchOnlyWhenFilled | app/src/main/java/com/valencia/streamhub/features/users/presentation/screens/RegisterScreen.kt:162-164 | The mismatch message appears only when every field is filled |
| RegisterForm.WhitespaceFieldsSubmitted | app/src/main/java/com/valencia/streamhub/features/users/presentation/screens/RegisterScreen.kt:153-159 | isEmpty lets fields of spaces through |
| UserMapper.ToDomain | app/src/main/java/com/valencia/streamhub/features/users/data/datasources/remote/mapper/UserMapper.kt:6-15 | Every field is copied, avatar_url to avatarUrl |
| UserMapper.ToResponse | app/src/main/java/com/valencia/streamhub/features/users/data/datasources/remote/mapper/UserMapper.kt:17-26 | Every field is copied back |
| UserMapper.ResponseRoundTrip | app/src/main/java/com/valencia/streamhub/features/users/data/datasources/remote/mapper/UserMapper.kt:6-26 | toResponse(toDomain(r)) == r |
| UserMapper.UserRoundTrip | app/src/main/java/com/valencia/streamhub/features/users/data/datasources/remote/mapper/UserMapper.kt:6-26 | toDomain(toResponse(u)) == u |
| UserMapper.MappingInjective | app/src/main/java/com/valencia/streamhub/features/users/data/datasources/remote/mapper/UserMapper.kt:6-15 | Distinct responses map to distinct users |
| Posts.FilterValid | app/src/main/java/com/valencia/streamhub/features/jsonplaceholder/domain/usescases/GetPostsUseCase.kt:15 | A post is kept iff it is in the input and its title is not blank |
| Posts.FilterValidConcat | app/src/main/java/com/valencia/streamhub/features/jsonplaceholder/domain/usescases/GetPostsUseCase.kt:15 | Filtering distributes over concatenation, so order is preserved |
| Posts.AllValidKept | app/src/main/java/com/valencia/streamhub/features/jsonplaceholder/domain/usescases/GetPostsUseCase.kt:15 | A list of valid posts is kept whole |
| Posts.FilterValidKeepsAllIffAllValid | app/src/main/java/com/valencia/streamhub/features/jsonplaceholder/domain/usescases/GetPostsUseCase.kt:15 | Nothing is dropped iff every title is non-blank |
| Posts.GetPosts | app/src/main/java/com/valencia/streamhub/features/jsonplaceholder/domain/usescases/GetPostsUseCase.kt:11-25 | An exception is passed through. With no valid post the result is "No se encontraron post válidos"; otherwise the filtered list. Success is never empty |
| Posts.Initial | app/src/main/java/com/valencia/streamhub/features/jsonplaceholder/presentation/screens/PostsUIState.kt:5-10 | All defaults |
| Posts.BeginLoad | app/src/main/java/com/valencia/streamhub/features/jsonplaceholder/presentation/viewmodels/PostsViewModel.kt:26 | isLoading set, nothing else changed |
| Posts.FinishLoad | app/src/main/java/com/valencia/streamhub/features/jsonplaceholder/presentation/viewmodels/PostsViewModel.kt:30-39 | Success shows the list and keeps the error. Failure shows the message and keeps the posts. isRefreshing is never touched |
| Posts.Load | app/src/main/java/com/valencia/streamhub/features/jsonplaceholder/presentation/viewmodels/PostsViewModel.kt:21-41 | After the init load the screen is not loading and not refreshing |
| Posts.LoadShowsValidPostsOrMessage | app/src/main/java/com/valencia/streamhub/features/jsonplaceholder/presentation/viewmodels/PostsViewModel.kt:21-41 | The screen shows exactly the posts with a title, or no posts and the failure message |
| Posts.SilentFailureShowsNothing | app/src/main/java/com/valencia/streamhub/features/jsonplaceholder/presentation/viewmodels/PostsViewModel.kt:35-37 | An exception with a null message leaves neither posts nor an error |
| Text.Trim | app/src/main/java/com/valencia/streamhub/features/streams/presentation/viewmodels/ChatViewModel.kt:67 | The result is a slice with blank borders on both sides, and its ends are not whitespace |
| Text.TrimEmptyIffBlank | app/src/main/java/com/valencia/streamhub/features/streams/presentation/viewmodels/ChatViewModel.kt:66-67 | trim() is empty iff the string is blank |
| Text.TrimIdempotent | app/src/main/java/com/valencia/streamhub/features/streams/presentation/viewmodels/ChatViewModel.kt:67 | Trimming twice is trimming once |
| Text.ContainsIffOccurs | app/src/main/java/com/valencia/streamhub/features/users/data/datasources/remote/AuthInterceptor.kt:11 | contains agrees with the positional definition of an occurrence |
| Text.Decimal | app/src/main/java/com/valencia/streamhub/features/streams/data/repositories/StreamRepositoryImpl.kt:21-22 | The decimal text of n is all digits, has no leading zero and parses back to n |
| Text.DecimalInjective | app/src/main/java/com/valencia/streamhub/features/streams/data/repositories/StreamRepositoryImpl.kt:22 | Different codes have different texts |
| Text.IsWhitespace | app/src/main/java/com/valencia/streamhub/features/streams/presentation/viewmodels/ChatViewModel.kt:66 | Kotlin's `Char.isWhitespace` on the JVM: U+0009 to U+000D, U+001C to U+0020, U+00A0, U+1680, U+2000 to U+200A, U+2028, U+2029, U+202F, U+205F and U+3000 |
| Text.IsBlank | app/src/main/java/com/valencia/streamhub/features/streams/presentation/components/ChatInput.kt:48-53 | `isBlank`: every character is whitespace (so "" is blank); used by the chat send guard, the input, the stream mapper (StreamMapper.kt:8-13) and the posts filter (GetPostsUseCase.kt:15) |
| Text.IsEmpty | app/src/main/java/com/valencia/streamhub/features/users/presentation/screens/RegisterScreen.kt:153-159 | `isEmpty`: length zero, so a string of spaces is not empty; also the stream id test of ChatViewModel.kt:39 |
| Text.Take | app/src/main/java/com/valencia/streamhub/features/streams/presentation/components/ChatBubble.kt:66 | `take(n)`: the first min(n, length) characters |
| Text.TakeLast | app/src/main/java/com/valencia/streamhub/features/streams/presentation/components/ChatBubble.kt:66 | `takeLast(n)`: the last min(n, length) characters |
| Text.Contains | app/src/main/java/com/valencia/streamhub/features/users/data/datasources/remote/AuthInterceptor.kt:11 | `contains`: the marker occurs somewhere in the path (the empty string occurs everywhere); see Text.ContainsIffOccurs |
| ChatViewModel.Apply | app/src/main/java/com/valencia/streamhub/features/streams/presentation/viewmodels/ChatViewModel.kt:46-62 | One value from either collector, applied by the matching reducer |
| ChatViewModel.Collect | app/src/main/java/com/valencia/streamhub/features/streams/presentation/viewmodels/ChatViewModel.kt:46-62 | The two collectors serialised: updates applied one after another in delivery order |
| ChatSocket.Run | app/src/main/java/com/valencia/streamhub/features/streams/data/datasources/remote/ChatWebSocketService.kt:36-93 | Calls and listener callbacks applied one at a time, in the order they arrive |

## Left out

- Socket I/O, OkHttp, Retrofit and Gson: decoding is an input (a DTO or nothing) and encoding is the `SendMessageDto` record.
- `Log` calls: they have no effect on state.
- Threading and coroutine interleavings: callbacks and collectors are applied one at a time, in order.
- `MutableSharedFlow` buffering: the 64-slot buffer and `tryEmit` dropping depend on subscriber speed. The model emits every chat frame.
- Hot-flow subscription timing: frames emitted before the view model subscribes are counted as delivered.
- `TokenManager`: SharedPreferences persistence is reduced to the `TokenStore` record. `clearToken` is never called by the modelled code.
- `UUID.randomUUID()`: the fallback id is a parameter, a function of the list index in `GetStreams`.
- Compose layout, colours, navigation and the login screen: only the guards listed in the table are modelled.
- The viewers-count text of the stream card: it is a plain rendering of an integer.
- Dependency injection modules, Retrofit interfaces, repository interfaces and the pass-through use cases: they contain no logic.
- `PostsRepositoryImpl` and the posts mapper: plain field copies; a post is a record.
- The duplicate demo files under the `com/alilopez` package: they are copies of the posts feature.
- Strings are sequences of Unicode scalar values, while Kotlin counts UTF-16 code units. `take` and `takeLast` differ on characters outside the Basic Multilingual Plane. `trim` and `isBlank` do not, because every whitespace character lies in that plane.
- The Posts entity and DTO files are not part of this model. A post is an id, a title and a body, as the mapper shows.
- ChatSocket.Connect: the socket URL is recorded as the plain concatenation; OkHttp's own URL parsing (which could reject a malformed id) is not modelled.
- AuthRepository.Login: a `/me` reply whose user id Gson left null is not modelled; the id is a string.
- AuthRepository.Login: a login reply whose token Gson left null is not modelled; the token is a string. In the source, `saveToken` would throw on such a reply and the catch would turn it into `Error(message)`.
