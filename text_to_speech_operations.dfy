/** The text-to-speech operation of the `org.mule.extension.whisperer`
    connector: the same forwarding as the older `generateSpeech`, with the
    same `inferMediaType`. */
module TextToSpeechOperations {
  import opened Common
  import OpenAiApi
  import SpeechOperations

  /** `inferMediaType(params)`, the same switch as in the older operations:
      "audio/<format>" without parameters for the six listed formats,
      BINARY for any other, and a `NullPointerException` from the `switch`
      for a `null` format. */
  function InferMediaType(responseFormat: Option<string>): (r: Result<MediaType>)
    ensures responseFormat.None? ==> r.Err? && r.error.kind == NullPointerException
    ensures responseFormat.Some? && responseFormat.value in SpeechOperations.AudioFormats ==>
      r == Ok(MediaType("audio/" + responseFormat.value, []))
    ensures responseFormat.Some? && responseFormat.value !in SpeechOperations.AudioFormats ==>
      r == Ok(SpeechOperations.Binary)
  {
    SpeechOperations.InferMediaType(responseFormat)
  }

  /** `generateSpeech`: on success the audio unchanged, tagged with
      `inferMediaType` of the options; on failure the cause. A `null`
      response format makes the `switch` throw inside the `whenComplete`
      action, so the callback hears nothing. The operation answers as the
      older `generateSpeech` does. */
  function GenerateSpeech(future: Future<seq<Byte>>, params: OpenAiApi.TtsParams): (c: SpeechOperations.Completion<seq<Byte>>)
    ensures future.Failed? ==> c == SpeechOperations.Errored(future.exception.cause)
    ensures future.Completed? && params.responseFormat.None? ==>
      c.Unanswered? && c.exception.kind == NullPointerException
    ensures future.Completed? && params.responseFormat.Some? && params.responseFormat.value in SpeechOperations.AudioFormats ==>
      c == SpeechOperations.Succeeded(future.value, Some(MediaType("audio/" + params.responseFormat.value, [])))
    ensures future.Completed? && params.responseFormat.Some? && params.responseFormat.value !in SpeechOperations.AudioFormats ==>
      c == SpeechOperations.Succeeded(future.value, Some(SpeechOperations.Binary))
    ensures c == SpeechOperations.GenerateSpeech(future, params)
  {
    match future
    case Failed(e) => SpeechOperations.Errored(e.cause)
    case Completed(audioData) =>
      match InferMediaType(params.responseFormat)
      case Ok(mediaType) => SpeechOperations.Succeeded(audioData, Some(mediaType))
      case Err(e) => SpeechOperations.Unanswered(e)
  }
}
