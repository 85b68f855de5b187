/**
  Values shared by every part of the connector model: bytes and 16-bit
  samples, optional values, the Java exceptions the connector raises or
  forwards, and the two shapes an asynchronous operation can end in.
 */
module Common {

  /** An octet, as Java's `byte` seen through `b & 0xff`. */
  type Byte = b: int | 0 <= b < 256

  /** A Java `short`. */
  type Short = s: int | -0x8000 <= s < 0x8000

  datatype Option<+T> = None | Some(value: T) {
    function GetOr(default: T): T {
      match this
      case Some(v) => v
      case None => default
    }
  }

  /** The error kinds of the connector (`ConnectorError`); only the extension
      package has AUDIO_FORMAT_NOT_SUPPORTED. */
  datatype ConnectorError =
    | ConnectionIncompatible
    | Transcription
    | Generation
    | AudioFormatNotSupported
    | Timeout

  /** The Java exception classes that appear in the core. A `ModuleException`
      carries its connector error; `TranscriptionException`,
      `GenerationException` and `ConnectionIncompatibleException` are
      module exceptions with TRANSCRIPTION, GENERATION and
      CONNECTION_INCOMPATIBLE. */
  datatype ExceptionKind =
    | IOException
    | TimeoutException
    | UnsupportedAudioFileException
    | UnsupportedOperationException
    | IllegalArgumentException
    | MalformedURLException
    | NullPointerException
    | StackOverflowError
    | UnsatisfiedLinkError
    | RuntimeException
    | CompletionException
    | JSONException
    | ConnectionException
    | StartException
    | ModuleException(error: ConnectorError)

  datatype Throwable = Throwable(kind: ExceptionKind, message: string, cause: Option<Throwable>)

  /** The kinds that are a `java.lang.Error` rather than an `Exception`, so
      that no `catch (Exception e)` stops them. */
  predicate IsJavaError(kind: ExceptionKind) {
    kind == StackOverflowError || kind == UnsatisfiedLinkError
  }

  function Error(kind: ExceptionKind, message: string): Throwable {
    Throwable(kind, message, None)
  }

  function Wrapping(kind: ExceptionKind, message: string, cause: Throwable): Throwable {
    Throwable(kind, message, Some(cause))
  }

  predicate IsModuleError(t: Throwable, e: ConnectorError) {
    t.kind == ModuleException(e)
  }

  datatype Result<+T> = Ok(value: T) | Err(error: Throwable)

  /** How a `CompletableFuture` is observed by `whenComplete`: a value, or
      the exception it reports. */
  datatype Future<+T> = Completed(value: T) | Failed(exception: Throwable)

  /** What a Java method that returns a future does: return one, or throw
      before any future exists. */
  datatype Call<+T> = Returned(future: Future<T>) | Threw(exception: Throwable)

  /** An exception thrown inside a `supplyAsync` or `thenApply` stage reaches
      `whenComplete` wrapped in a `CompletionException` whose cause it is
      (a `CompletionException` is passed on as it is). */
  function CompletionWrap(x: Throwable): (w: Throwable)
    ensures w.kind == CompletionException
    ensures x.kind != CompletionException ==> w.cause == Some(x)
  {
    if x.kind == CompletionException then x
    else Wrapping(CompletionException, x.message, x)
  }

  /** The future of `supplyAsync(() -> { throw x; })`. */
  function AsyncFailure<T>(x: Throwable): Future<T> {
    Failed(CompletionWrap(x))
  }

  /** A Mule `MediaType`: `withoutParameters().toString()` is the essence
      ("audio/wav"); `toString()` also lists the parameters. */
  datatype MediaType = MediaType(essence: string, parameters: seq<(string, string)>) {
    function WithoutParameters(): string {
      essence
    }

    function ToString(): string {
      essence + ParametersText(parameters)
    }
  }

  function ParametersText(ps: seq<(string, string)>): string {
    if ps == [] then "" else "; " + ps[0].0 + "=" + ps[0].1 + ParametersText(ps[1..])
  }

  /** An `InputStream`: the bytes its reads deliver, and the exception the
      read after them throws, if any, instead of reporting the end (-1). */
  datatype ByteStream = ByteStream(data: seq<Byte>, failure: Option<Throwable>)

  /** A `TypedValue<InputStream>` of audio: the media type of its data type,
      and the stream. */
  datatype AudioContent = AudioContent(mediaType: MediaType, stream: ByteStream)

  /** The attributes of a verbose OpenAI transcription: the language, and the
      duration where the response has one. */
  datatype TranscriptionAttributes = TranscriptionAttributes(language: string, duration: Option<real>)

  /** A Mule `Result<String, Object>` of a transcription: the text, and the
      attributes where the connection sets them. */
  datatype TranscriptionResult = TranscriptionResult(output: string, attributes: Option<TranscriptionAttributes>)

  /** The transcription options of a request (`STTParamsModelDetails`): the
      model name, the language (Java `null` as `None`), the temperature with
      the text its `toString()` gives, and whether a verbose response is
      wanted. */
  datatype SttParams = SttParams(
    modelName: string,
    language: Option<string>,
    temperature: real,
    temperatureText: string,
    verbose: bool)

  /** Concatenation regroups; stated once, over opaque operands, so that
      callers need not unfold the sequences they join. */
  lemma Assoc<T>(a: seq<T>, b: seq<T>, c: seq<T>)
    ensures a + (b + c) == a + b + c
  {
  }
}
