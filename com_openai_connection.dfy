/** The OpenAI connection of the `com.mule.whisperer` connector: the older
    variant, which always asks for plain text, sends a fixed three-part
    form, and reports a bad status as a plain `RuntimeException`. */
module ComOpenAiConnection {
  import opened Common
  import opened Strings
  import opened Http
  import opened OpenAiApi
  import HelpersAudioUtils

  const WavTypes: set<string> := {"audio/wav", "audio/vnd.wav", "audio/vnd.wave", "audio/wave", "audio/x-wav", "audio/x-pn-wav"}

  /** The connection's own `guessAudioFileExtension`: "mp3" unless the
      media type is one of the listed ones. */
  function GuessAudioFileExtension(m: MediaType): (ext: string)
    ensures ext in {"m4a", "flac", "wav", "ogg", "weba", "aac", "mp3"}
  {
    var t := m.WithoutParameters();
    if t in {"audio/m4a", "audio/mp4"} then "m4a"
    else if t in {"audio/flac", "audio/x-flac"} then "flac"
    else if t in WavTypes then "wav"
    else if t == "audio/ogg" then "ogg"
    else if t == "audio/webm" then "weba"
    else if t == "audio/aac" then "aac"
    else "mp3"
  }

  /** It answers exactly as the helper in `helpers/AudioUtils` does. */
  lemma GuessAgreesWithHelpers(m: MediaType)
    ensures GuessAudioFileExtension(m) == HelpersAudioUtils.GuessAudioFileExtension(m)
  {
  }

  /** Unlike the `helpers/audio` variant, "audio/x-m4a" is not recognised
      and is sent as "speech.mp3". */
  lemma XM4aFallsBackToMp3()
    ensures GuessAudioFileExtension(MediaType("audio/x-m4a", [])) == "mp3"
  {
  }

  /** Three parts answering the names "file", "model", "response_format" in
      order. */
  lemma ThreeLookups(a: HttpPart, b: HttpPart, c: HttpPart)
    requires a.name == "file" && b.name == "model" && c.name == "response_format"
    ensures Names([a, b, c]) == ["file", "model", "response_format"]
    ensures Lookup([a, b, c], "file") == Some(a) && Lookup([a, b, c], "model") == Some(b)
    ensures Lookup([a, b, c], "response_format") == Some(c)
    ensures forall n :: n !in {"file", "model", "response_format"} ==> Lookup([a, b, c], n).None?
  {
    assert [a, b, c][1..] == [b, c];
    assert [b, c][1..] == [c];
    assert Names([c]) == ["response_format"];
    assert Lookup([c], "response_format") == Some(c);
    assert Lookup([b, c], "response_format") == Lookup([c], "response_format");
    forall n | n !in {"file", "model", "response_format"}
      ensures Lookup([a, b, c], n).None?
    {
      LookupFinds([a, b, c], n);
    }
  }

  /** The form of `transcribe`: `Arrays.asList(audioPart, modelPart,
      formatPart)`. */
  function TranscriptionParts(audioBytes: seq<Byte>, mediaType: MediaType, params: SttParams): (parts: seq<HttpPart>)
    ensures Names(parts) == ["file", "model", "response_format"]
    ensures Lookup(parts, "file") == Some(FilePart(GuessAudioFileExtension(mediaType), audioBytes, mediaType))
    ensures Lookup(parts, "model") == Some(TextPart("model", params.modelName))
    ensures Lookup(parts, "response_format") == Some(TextPart("response_format", "text"))
    ensures forall n :: n !in {"file", "model", "response_format"} ==> Lookup(parts, n).None?
  {
    var modelPart := TextPart("model", params.modelName);
    var formatPart := TextPart("response_format", "text");
    var audioPart := FilePart(GuessAudioFileExtension(mediaType), audioBytes, mediaType);
    ThreeLookups(audioPart, modelPart, formatPart);
    [audioPart, modelPart, formatPart]
  }

  /** The `thenApply` of `transcribe`: the body as text on 200, otherwise a
      `RuntimeException` naming the status. */
  function TranscriptionReply(exchange: Exchange, support: TextSupport): (f: Future<string>)
    ensures exchange.Broken? ==> f == Failed(CompletionWrap(exchange.exception))
    ensures exchange.Answered? && exchange.response.status != 200 ==>
      f.Failed? && f.exception.kind == CompletionException &&
      f.exception.cause == Some(Error(RuntimeException, UnexpectedStatus(exchange.response.status, OpenAiOrigin)))
    ensures exchange.Answered? && exchange.response.status == 200 ==> f == Completed(support.decode(exchange.response.content))
  {
    match exchange
    case Broken(e) => AsyncFailure(e)
    case Answered(response) =>
      if 200 != response.status then AsyncFailure(Error(RuntimeException, UnexpectedStatus(response.status, OpenAiOrigin)))
      else Completed(support.decode(response.content))
  }

  class ComOpenAiConnection {
    const apiKey: string
    const client: Client
    const apiUri: string
    const support: TextSupport

    constructor(apiKey: string, client: Client, apiUri: string, support: TextSupport)
      ensures this.apiKey == apiKey && this.client == client && this.apiUri == apiUri && this.support == support
    {
      this.apiKey := apiKey;
      this.client := client;
      this.apiUri := apiUri;
      this.support := support;
    }

    /** `validate()`: the health check on the connection's own client, key
        and base URI, which passes exactly on a 200 answer. */
    function Validate(): (r: Result<()>)
      ensures r == HealthCheck(client, apiKey, apiUri)
      ensures r.Ok? <==>
        client(HealthCheckRequest(apiKey, apiUri)).Answered? && client(HealthCheckRequest(apiKey, apiUri)).response.status == 200
    {
      HealthCheck(client, apiKey, apiUri)
    }

    /** `transcribe(audioContent, params)`: the request it sends, if it gets
        that far, and what it gives back. */
    method Transcribe(audio: AudioContent, params: SttParams)
      returns (sent: Option<HttpRequest>, call: Call<string>)
      ensures audio.stream.failure.Some? ==> sent.None? && call == Threw(ReadFailure(audio.stream.failure.value))
      ensures audio.stream.failure.None? ==>
        sent.Some? && sent.value.verb == POST && sent.value.uri == Resolve(apiUri, "audio/transcriptions") &&
        sent.value.headers == [Authorization(apiKey)] &&
        sent.value.entity == Multipart(TranscriptionParts(audio.stream.data, audio.mediaType, params)) &&
        call == Returned(TranscriptionReply(client(sent.value), support))
    {
      var transcriptionEndpoint := Resolve(apiUri, "audio/transcriptions");
      if audio.stream.failure.Some? {
        return None, Threw(ReadFailure(audio.stream.failure.value));
      }
      var audioBytes := audio.stream.data;
      var request := HttpRequest(POST, transcriptionEndpoint, [Authorization(apiKey)],
                                 Multipart(TranscriptionParts(audioBytes, audio.mediaType, params)));
      sent := Some(request);
      call := Returned(TranscriptionReply(client(request), support));
    }

    /** `generate(text, params)`: the speech request and the future of its
        answer, failing with a `RuntimeException` on a status other
        than 200. */
    method Generate(text: string, params: TtsParams) returns (request: HttpRequest, future: Future<seq<Byte>>)
      ensures request.verb == POST && request.uri == Resolve(apiUri, "audio/speech")
      ensures request.headers == [Authorization(apiKey), ("Content-Type", "application/json")]
      ensures request.entity.JsonEntity? && SpeechFields(request.entity.fields, Some(JString(text)), params)
      ensures future == SpeechReply(client(request), RuntimeException)
      ensures var exchange := client(request);
        exchange.Answered? && exchange.response.status != 200 ==>
          future.Failed? && future.exception.cause.Some? &&
          future.exception.cause.value.kind == RuntimeException &&
          Contains(future.exception.cause.value.message, IntToString(exchange.response.status))
    {
      request := SpeechRequest(apiKey, apiUri, text, params);
      future := SpeechReply(client(request), RuntimeException);
    }
  }
}
