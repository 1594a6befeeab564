/** The stream wire records, the `Stream` entity and `StreamResult`. */
module StreamModels {
  import opened Optional

  /** Kotlin's `Int`. */
  type Int32 = x: int | -0x8000_0000 <= x < 0x8000_0000

  /** A stream as Gson decodes it; the text fields may be absent, the count and flag default to 0 and false. */
  datatype StreamResponse = StreamResponse(
    id: Option<string>,
    title: Option<string>,
    description: Option<string>,
    thumbnailUrl: Option<string>,
    category: Option<string>,
    ownerId: Option<string>,
    viewersCount: Int32,
    isLive: bool,
    startedAt: Option<string>,
    createdAt: Option<string>
  )

  datatype Stream = Stream(
    id: string,
    title: string,
    description: Option<string>,
    thumbnailUrl: Option<string>,
    category: Option<string>,
    ownerId: string,
    viewersCount: Int32,
    isLive: bool,
    startedAt: Option<string>,
    createdAt: string
  )

  /** The body of the start and join replies (`StartStreamResponse`, `JoinStreamResponse`). */
  datatype MessageResponse = MessageResponse(message: string)

  datatype StreamResult<+T> = Success(data: T) | Error(message: string) | Loading
}
