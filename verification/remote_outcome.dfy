/**
  How a remote call ends, and the error text both repositories build from
  it in their two `catch` blocks.
 */
module RemoteOutcome {
  import opened Optional
  import opened Text

  /**
    A Retrofit call either returns a value, throws an `HttpException` (status
    code, error body if one could be read), or throws anything else (its
    message, which may be null).
   */
  datatype Outcome<+T> = Ok(value: T) | Http(code: nat, body: Option<string>) | Other(message: Option<string>)

  const UnknownError: string := "Error desconocido"

  /** `"Error ${code}: $errorBody"`, where a missing body becomes `"Error HTTP ${code}"`. */
  function HttpErrorMessage(code: nat, body: Option<string>): (msg: string)
    ensures body.Some? ==> msg == "Error " + Decimal(code) + ": " + body.value
    ensures body.None? ==> msg == "Error " + Decimal(code) + ": Error HTTP " + Decimal(code)
  {
    "Error " + Decimal(code) + ": " + body.GetOr("Error HTTP " + Decimal(code))
  }

  /** The message of a failed call: the HTTP text, or the exception's message, or "Error desconocido". */
  function FailureMessage<T>(o: Outcome<T>): (msg: string)
    requires !o.Ok?
    ensures o.Http? ==> msg == HttpErrorMessage(o.code, o.body)
    ensures o.Other? && o.message.Some? ==> msg == o.message.value
    ensures o.Other? && o.message.None? ==> msg == "Error desconocido"
  {
    match o
    case Http(code, body) => HttpErrorMessage(code, body)
    case Other(message) => message.GetOr(UnknownError)
  }

  const ErrorPrefix: string := "Error "

  /** Reads the status code back out of an HTTP error text: the digits between "Error " and the first ':'. */
  function ParseHttpCode(msg: string): Option<nat> {
    if !(ErrorPrefix <= msg) then None
    else
      var rest := msg[|ErrorPrefix|..];
      var k := IndexOf(rest, ':');
      if 0 < k < |rest| && AllDigits(rest[..k]) then Some(ParseDecimal(rest[..k])) else None
  }

  /** The HTTP error text always names its status code unambiguously, whatever the body says. */
  lemma HttpCodeRecoverable(code: nat, body: Option<string>)
    ensures ParseHttpCode(HttpErrorMessage(code, body)) == Some(code)
  {
    var msg := HttpErrorMessage(code, body);
    var digits := Decimal(code);
    var rest := msg[|ErrorPrefix|..];
    assert rest == digits + ": " + body.GetOr("Error HTTP " + digits);
    var k := IndexOf(rest, ':');
    assert rest[|digits|] == ':';
    assert k <= |digits|;
    assert rest[..k] == digits;
  }
}
