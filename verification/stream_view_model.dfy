/** `StreamViewModel`: the `StreamState` reducer for load, create, start, join and the two resets. */
module StreamViewModel {
  import opened Optional
  import opened StreamModels

  datatype StreamState = StreamState(
    streams: seq<Stream>,
    isLoading: bool,
    error: Option<string>,
    isCreated: bool,
    isStarted: bool,
    isJoined: bool
  )

  /** The three operations that end by reloading the list. */
  datatype Action = Create | Start | Join

  function Initial(): (s: StreamState)
    ensures s.streams == [] && !s.isLoading && s.error.None?
    ensures !s.isCreated && !s.isStarted && !s.isJoined
  {
    StreamState([], false, None, false, false, false)
  }

  /** The flag an action reports its success in. */
  function Flag(s: StreamState, a: Action): bool {
    match a
    case Create => s.isCreated
    case Start => s.isStarted
    case Join => s.isJoined
  }

  function SetFlag(s: StreamState, a: Action, v: bool): (r: StreamState)
    ensures Flag(r, a) == v
    ensures forall b :: b != a ==> Flag(r, b) == Flag(s, b)
    ensures r.streams == s.streams && r.isLoading == s.isLoading && r.error == s.error
  {
    match a
    case Create => s.(isCreated := v)
    case Start => s.(isStarted := v)
    case Join => s.(isJoined := v)
  }

  /** `loadStreams()` starts: loading, no error, everything else as it was. */
  function BeginLoad(s: StreamState): (r: StreamState)
    ensures r.isLoading && r.error.None?
    ensures r.streams == s.streams
    ensures forall a :: Flag(r, a) == Flag(s, a)
  {
    s.(isLoading := true, error := None)
  }

  /** `loadStreams()` ends: success replaces the list wholesale, an error shows its message, `Loading` changes nothing. */
  function FinishLoad(s: StreamState, result: StreamResult<seq<Stream>>): (r: StreamState)
    ensures result.Success? ==> !r.isLoading && r.streams == result.data && r.error == s.error
    ensures result.Error? ==> !r.isLoading && r.error == Some(result.message) && r.streams == s.streams
    ensures result.Loading? ==> r == s
    ensures forall a :: Flag(r, a) == Flag(s, a)
  {
    match result
    case Success(data) => s.(isLoading := false, streams := data)
    case Error(message) => s.(isLoading := false, error := Some(message))
    case Loading => s
  }

  /** An action starts: loading, no error, and only its own flag reset. */
  function BeginAction(s: StreamState, a: Action): (r: StreamState)
    ensures r.isLoading && r.error.None? && r.streams == s.streams
    ensures !Flag(r, a)
    ensures forall b :: b != a ==> Flag(r, b) == Flag(s, b)
  {
    SetFlag(s.(isLoading := true, error := None), a, false)
  }

  /**
    An action ends. Success raises its flag, stops loading and starts a reload
    (the second component); an error shows its message and leaves the list and
    flags alone; `Loading` changes nothing.
   */
  function FinishAction<T>(s: StreamState, a: Action, result: StreamResult<T>): (r: (StreamState, bool))
    ensures r.1 <==> result.Success?
    ensures result.Success? ==> Flag(r.0, a) && !r.0.isLoading && r.0.streams == s.streams && r.0.error == s.error
    ensures result.Success? ==> forall b :: b != a ==> Flag(r.0, b) == Flag(s, b)
    ensures result.Error? ==> !r.0.isLoading && r.0.error == Some(result.message) && r.0.streams == s.streams
    ensures result.Error? ==> forall b :: Flag(r.0, b) == Flag(s, b)
    ensures result.Loading? ==> r.0 == s
  {
    match result
    case Success(_) => (SetFlag(s.(isLoading := false), a, true), true)
    case Error(message) => (s.(isLoading := false, error := Some(message)), false)
    case Loading => (s, false)
  }

  /** `clearError()`: only the error goes. */
  function ClearError(s: StreamState): (r: StreamState)
    ensures r.error.None?
    ensures r.streams == s.streams && r.isLoading == s.isLoading
    ensures forall a :: Flag(r, a) == Flag(s, a)
  {
    s.(error := None)
  }

  /** `resetCreated()`: only `isCreated` goes. */
  function ResetCreated(s: StreamState): (r: StreamState)
    ensures !r.isCreated
    ensures r.streams == s.streams && r.isLoading == s.isLoading && r.error == s.error
    ensures r.isStarted == s.isStarted && r.isJoined == s.isJoined
  {
    s.(isCreated := false)
  }

  /**
    A successful action followed by its reload: the flag survives the reload,
    which shows the new list; a failed reload shows its error but keeps both
    the old list and the raised flag.
   */
  lemma SuccessfulActionThenReload<T>(s: StreamState, a: Action, data: T, reload: StreamResult<seq<Stream>>)
    requires !reload.Loading?
    ensures var (afterAction, reloads) := FinishAction(BeginAction(s, a), a, Success(data));
            var afterReload := FinishLoad(BeginLoad(afterAction), reload);
            && reloads
            && Flag(afterReload, a)
            && !afterReload.isLoading
            && (reload.Success? ==> afterReload.streams == reload.data && afterReload.error.None?)
            && (reload.Error? ==> afterReload.streams == s.streams && afterReload.error == Some(reload.message))
  {
  }
}
