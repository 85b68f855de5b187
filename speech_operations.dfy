/** The operations of the `com.mule.whisperer` connector that hand a
    connection's future to Mule's completion callback. */
module SpeechOperations {
  import opened Common
  import OpenAiApi

  /** What the completion callback receives: a success with its output and
      the media type it is tagged with, or an error with the exception's
      cause (`null` as `None`). `Unanswered` is an exception thrown inside
      the `whenComplete` action, which reaches neither. */
  datatype Completion<T> =
    | Succeeded(output: T, mediaType: Option<MediaType>)
    | Errored(cause: Option<Throwable>)
    | Unanswered(exception: Throwable)

  const Binary := MediaType("application/octet-stream", [])

  /** The response formats named in the switch of `inferMediaType`. */
  const AudioFormats: set<string> := {"mp3", "ogg", "aac", "flac", "pcm", "wav"}

  /** The formats the response-format value provider offers. */
  const OfferedFormats: set<string> := {"mp3", "opus", "aac", "flac", "pcm", "wav"}

  /** `inferMediaType(params)`: "audio/<format>" for the listed formats,
      BINARY for any other; a `null` format fails the `switch`. */
  function InferMediaType(responseFormat: Option<string>): (r: Result<MediaType>)
    ensures responseFormat.None? ==> r.Err? && r.error.kind == NullPointerException
    ensures responseFormat.Some? && responseFormat.value in AudioFormats ==>
      r == Ok(MediaType("audio/" + responseFormat.value, []))
    ensures responseFormat.Some? && responseFormat.value !in AudioFormats ==> r == Ok(Binary)
  {
    match responseFormat
    case None => Err(Error(NullPointerException, ""))
    case Some(format) =>
      match format
      case "mp3" | "ogg" | "aac" | "flac" | "pcm" | "wav" => Ok(MediaType("audio/" + format, []))
      case _ => Ok(Binary)
  }

  /** Of the offered formats only "opus" is tagged BINARY. */
  lemma OpusIsBinary()
    ensures forall f :: f in OfferedFormats ==> (InferMediaType(Some(f)) == Ok(Binary) <==> f == "opus")
  {
    assert "opus" !in AudioFormats;
  }

  /** Different listed formats get different media types. */
  lemma AudioTypesAreDistinct(f: string, g: string)
    requires f in AudioFormats && g in AudioFormats && InferMediaType(Some(f)) == InferMediaType(Some(g))
    ensures f == g
  {
    assert ("audio/" + f)[6..] == f;
    assert ("audio/" + g)[6..] == g;
  }

  /** `transcribe`: the output alone on success, the cause of the failure
      otherwise. */
  function Transcribe(future: Future<TranscriptionResult>): (c: Completion<string>)
    ensures future.Completed? ==> c == Succeeded(future.value.output, None)
    ensures future.Failed? ==> c == Errored(future.exception.cause)
  {
    match future
    case Completed(result) => Succeeded(result.output, None)
    case Failed(e) => Errored(e.cause)
  }

  /** A success never carries the attributes of the transcription. */
  lemma TranscribeDropsAttributes(output: string, a: Option<TranscriptionAttributes>, b: Option<TranscriptionAttributes>)
    ensures Transcribe(Completed(TranscriptionResult(output, a))) == Transcribe(Completed(TranscriptionResult(output, b)))
  {
  }

  /** `generateSpeech`: the audio unchanged, tagged with the media type of
      the requested format, or the cause of the failure. */
  function GenerateSpeech(future: Future<seq<Byte>>, params: OpenAiApi.TtsParams): (c: Completion<seq<Byte>>)
    ensures future.Failed? ==> c == Errored(future.exception.cause)
    ensures future.Completed? && InferMediaType(params.responseFormat).Ok? ==>
      c == Succeeded(future.value, Some(InferMediaType(params.responseFormat).value))
    ensures future.Completed? && InferMediaType(params.responseFormat).Err? ==> c.Unanswered?
  {
    match future
    case Failed(e) => Errored(e.cause)
    case Completed(audioData) =>
      match InferMediaType(params.responseFormat)
      case Ok(mediaType) => Succeeded(audioData, Some(mediaType))
      case Err(e) => Unanswered(e)
  }

  /** A failed connection future reaches the callback as the exception the
      connection threw: `CompletionException` unwrapping undoes the wrap. */
  lemma ErrorIsTheThrownException(x: Throwable, params: OpenAiApi.TtsParams)
    requires x.kind != CompletionException
    ensures Transcribe(AsyncFailure(x)) == Errored(Some(x))
    ensures GenerateSpeech(AsyncFailure(x), params) == Errored(Some(x))
  {
  }
}
