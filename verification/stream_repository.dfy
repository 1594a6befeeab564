/**
  `StreamRepositoryImpl`: each of the four calls turns the outcome of its
  remote request into a `StreamResult`. None of them ever answers `Loading`.
 */
module StreamRepository {
  import opened Optional
  import opened RemoteOutcome
  import opened StreamModels
  import StreamMapper

  /** Every response mapped in place; the `i`-th element draws `uuids(i)` if its id is blank. */
  function MapAll(rs: seq<StreamResponse>, uuids: nat -> string): (ss: seq<Stream>)
    ensures |ss| == |rs|
    ensures forall i :: 0 <= i < |rs| ==> ss[i] == StreamMapper.ToDomain(rs[i], uuids(i))
  {
    seq(|rs|, i requires 0 <= i < |rs| => StreamMapper.ToDomain(rs[i], uuids(i)))
  }

  /** `getStreams()`: the list, same length and order, each element mapped. */
  function GetStreams(o: Outcome<seq<StreamResponse>>, uuids: nat -> string): (r: StreamResult<seq<Stream>>)
    ensures !r.Loading?
    ensures o.Ok? <==> r.Success?
    ensures o.Ok? ==> |r.data| == |o.value|
    ensures o.Ok? ==> forall i :: 0 <= i < |o.value| ==> r.data[i] == StreamMapper.ToDomain(o.value[i], uuids(i))
    ensures o.Http? && o.body.Some? ==> r.Error? && r.message == "Error " + Text.Decimal(o.code) + ": " + o.body.value
    ensures o.Http? && o.body.None? ==> r.Error? && r.message == "Error " + Text.Decimal(o.code) + ": Error HTTP " + Text.Decimal(o.code)
    ensures o.Other? ==> r.Error? && r.message == o.message.GetOr("Error desconocido")
  {
    match o
    case Ok(rs) => Success(MapAll(rs, uuids))
    case _ => Error(FailureMessage(o))
  }

  /** `createStream(...)`: the created stream, mapped. */
  function CreateStream(o: Outcome<StreamResponse>, fallbackId: string): (r: StreamResult<Stream>)
    ensures !r.Loading?
    ensures o.Ok? <==> r.Success?
    ensures o.Ok? ==> r.data == StreamMapper.ToDomain(o.value, fallbackId)
    ensures !o.Ok? ==> r == Error(FailureMessage(o))
  {
    match o
    case Ok(resp) => Success(StreamMapper.ToDomain(resp, fallbackId))
    case _ => Error(FailureMessage(o))
  }

  /** `startStream(id)`: the server's `message` on success. */
  function StartStream(o: Outcome<MessageResponse>): (r: StreamResult<string>)
    ensures !r.Loading?
    ensures o.Ok? <==> r.Success?
    ensures o.Ok? ==> r.data == o.value.message
    ensures !o.Ok? ==> r == Error(FailureMessage(o))
  {
    match o
    case Ok(resp) => Success(resp.message)
    case _ => Error(FailureMessage(o))
  }

  /** `joinStream(id)`: the server's `message` on success. */
  function JoinStream(o: Outcome<MessageResponse>): (r: StreamResult<string>)
    ensures !r.Loading?
    ensures o.Ok? <==> r.Success?
    ensures o.Ok? ==> r.data == o.value.message
    ensures !o.Ok? ==> r == Error(FailureMessage(o))
  {
    match o
    case Ok(resp) => Success(resp.message)
    case _ => Error(FailureMessage(o))
  }

  /** A failed call's message still names the HTTP status, whatever the error body says. */
  lemma HttpFailureKeepsCode(o: Outcome<seq<StreamResponse>>, uuids: nat -> string)
    requires o.Http?
    ensures GetStreams(o, uuids).Error? && ParseHttpCode(GetStreams(o, uuids).message) == Some(o.code)
  {
    HttpCodeRecoverable(o.code, o.body);
  }
}
