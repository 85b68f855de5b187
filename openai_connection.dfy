/** The OpenAI connection of the `org.mule.extension.whisperer` connector:
    `transcribe` posts a multipart form to "audio/transcriptions" and maps
    the answer, as plain text or as verbose JSON, to a transcription result;
    `generate` posts a JSON object to "audio/speech". */
module OpenAiConnection {
  import opened Common
  import opened Strings
  import opened Http
  import opened OpenAiApi
  import AudioUtils

  /** A nullable string that is neither `null` nor empty. */
  predicate HasText(s: Option<string>) {
    s.Some? && s.value != ""
  }

  /** The name list with an optional field. */
  function Optional(name: string, present: bool): seq<string> {
    if present then [name] else []
  }

  /** `responseFormat`: "verbose_json" for a verbose request, else "text". */
  function ResponseFormat(verbose: bool): (format: string)
    ensures format == "verbose_json" <==> verbose
    ensures format == "text" <==> !verbose
  {
    if verbose then "verbose_json" else "text"
  }

  /** The form `transcribe` posts: model, response format and file, then
      the prompt when there is one, the temperature when it is positive, and
      the language when there is one, each with its value. */
  predicate IsTranscriptionForm(parts: seq<HttpPart>, audioBytes: seq<Byte>, mediaType: MediaType,
                                fineTuningPrompt: Option<string>, params: SttParams)
  {
    Names(parts) == ["model", "response_format", "file"] + Optional("prompt", HasText(fineTuningPrompt)) +
      Optional("temperature", params.temperature > 0.0) + Optional("language", HasText(params.language)) &&
    Lookup(parts, "model") == Some(TextPart("model", params.modelName)) &&
    Lookup(parts, "response_format") == Some(TextPart("response_format", ResponseFormat(params.verbose))) &&
    Lookup(parts, "file") == Some(FilePart(AudioUtils.GuessAudioFileExtension(mediaType), audioBytes, mediaType)) &&
    Lookup(parts, "prompt") == (if HasText(fineTuningPrompt) then Some(TextPart("prompt", fineTuningPrompt.value)) else None) &&
    Lookup(parts, "temperature") == (if params.temperature > 0.0 then Some(TextPart("temperature", params.temperatureText)) else None) &&
    Lookup(parts, "language") == (if HasText(params.language) then Some(TextPart("language", params.language.value)) else None)
  }

  /** An optional part as a list of at most one. */
  function OptionalPart(part: HttpPart, present: bool): seq<HttpPart> {
    if present then [part] else []
  }

  /** The form `transcribe` builds, as one expression. */
  function Form(audioBytes: seq<Byte>, mediaType: MediaType, fineTuningPrompt: Option<string>, params: SttParams): seq<HttpPart> {
    [TextPart("model", params.modelName),
     TextPart("response_format", ResponseFormat(params.verbose)),
     FilePart(AudioUtils.GuessAudioFileExtension(mediaType), audioBytes, mediaType)] +
    OptionalPart(TextPart("prompt", fineTuningPrompt.GetOr("")), HasText(fineTuningPrompt)) +
    OptionalPart(TextPart("temperature", params.temperatureText), params.temperature > 0.0) +
    OptionalPart(TextPart("language", params.language.GetOr("")), HasText(params.language))
  }

  /** An optional part answers its own name exactly when present. */
  lemma OptionalLookup(part: HttpPart, present: bool, name: string)
    ensures Lookup(OptionalPart(part, present), name) == if present && part.name == name then Some(part) else None
    ensures Names(OptionalPart(part, present)) == Optional(part.name, present)
  {
    if present {
      assert [part][1..] == [];
    }
  }

  /** Three leading parts answer their (distinct) names whatever follows. */
  lemma FixedLookups(a: HttpPart, b: HttpPart, c: HttpPart, rest: seq<HttpPart>)
    requires a.name == "model" && b.name == "response_format" && c.name == "file"
    ensures Lookup([a, b, c] + rest, "model") == Some(a)
    ensures Lookup([a, b, c] + rest, "response_format") == Some(b)
    ensures Lookup([a, b, c] + rest, "file") == Some(c)
    ensures Names([a, b, c]) == ["model", "response_format", "file"]
  {
    var base := [a, b, c];
    LookupConcat(base, rest, "model");
    LookupConcat(base, rest, "response_format");
    LookupConcat(base, rest, "file");
    assert base[1..] == [b, c];
    assert base[1..][1..] == [c];
    assert Lookup([c], "file") == Some(c);
    assert Lookup([b, c], "file") == Lookup([c], "file");
    assert Names([c]) == ["file"];
    assert Names([b, c]) == ["response_format"] + Names([c]);
  }

  /** The optional tail after the three fixed parts: its names in order,
      and each optional part answering its name exactly when present. */
  lemma OptionalLookups(base: seq<HttpPart>, pp: HttpPart, hasP: bool, tp: HttpPart, hasT: bool, lp: HttpPart, hasL: bool)
    requires Names(base) == ["model", "response_format", "file"]
    requires pp.name == "prompt" && tp.name == "temperature" && lp.name == "language"
    ensures var parts := base + OptionalPart(pp, hasP) + OptionalPart(tp, hasT) + OptionalPart(lp, hasL);
      Names(parts) == ["model", "response_format", "file"] + Optional("prompt", hasP) +
        Optional("temperature", hasT) + Optional("language", hasL) &&
      Lookup(parts, "prompt") == (if hasP then Some(pp) else None) &&
      Lookup(parts, "temperature") == (if hasT then Some(tp) else None) &&
      Lookup(parts, "language") == (if hasL then Some(lp) else None)
  {
    var p := OptionalPart(pp, hasP);
    var t := OptionalPart(tp, hasT);
    var l := OptionalPart(lp, hasL);
    OptionalLookup(pp, hasP, "prompt");
    OptionalLookup(tp, hasT, "temperature");
    OptionalLookup(lp, hasL, "language");
    OptionalLookup(tp, hasT, "prompt");
    OptionalLookup(lp, hasL, "prompt");
    OptionalLookup(lp, hasL, "temperature");
    NamesConcat(base + p + t, l);
    NamesConcat(base + p, t);
    NamesConcat(base, p);
    LookupConcat(base + p + t, l, "language");
    LookupConcat(base + p, t, "temperature");
    LookupConcat(base, p, "prompt");
    LookupConcat(base + p + t, l, "temperature");
    LookupConcat(base + p + t, l, "prompt");
    LookupConcat(base + p, t, "prompt");
    assert "language" !in Names(base + p + t);
    assert "temperature" !in Names(base + p);
    assert "prompt" !in Names(base);
    LookupFinds(base + p + t, "language");
    LookupFinds(base + p, "temperature");
    LookupFinds(base, "prompt");
  }

  /** `Form` is the transcription form. */
  lemma FormIsTranscriptionForm(audioBytes: seq<Byte>, mediaType: MediaType,
                                fineTuningPrompt: Option<string>, params: SttParams)
    ensures IsTranscriptionForm(Form(audioBytes, mediaType, fineTuningPrompt, params), audioBytes, mediaType, fineTuningPrompt, params)
  {
    var m := TextPart("model", params.modelName);
    var f := TextPart("response_format", ResponseFormat(params.verbose));
    var a := FilePart(AudioUtils.GuessAudioFileExtension(mediaType), audioBytes, mediaType);
    var pp := TextPart("prompt", fineTuningPrompt.GetOr(""));
    var tp := TextPart("temperature", params.temperatureText);
    var lp := TextPart("language", params.language.GetOr(""));
    var hasP, hasT, hasL := HasText(fineTuningPrompt), params.temperature > 0.0, HasText(params.language);
    var base, p, t, l := [m, f, a], OptionalPart(pp, hasP), OptionalPart(tp, hasT), OptionalPart(lp, hasL);
    var rest := p + t + l;
    assert Form(audioBytes, mediaType, fineTuningPrompt, params) == base + p + t + l;
    Assoc(base, p + t, l);
    Assoc(base, p, t);
    FixedLookups(m, f, a, rest);
    OptionalLookups([m, f, a], pp, hasP, tp, hasT, lp, hasL);
  }

  /** The verbose answer: the "text" of the JSON object, with its language
      and duration as attributes. */
  function VerboseResult(body: string, support: TextSupport): (f: Future<TranscriptionResult>)
    ensures support.parse(body).None? ==> f.Failed? && f.exception.cause == Some(Error(JSONException, ""))
    ensures var obj := support.parse(body);
      obj.Some? && GetString(obj.value, "text").Ok? ==>
        f == Completed(TranscriptionResult(obj.value["text"].s,
                                           Some(TranscriptionAttributes(OptString(obj.value, "language"), OptDouble(obj.value, "duration")))))
    ensures var obj := support.parse(body);
      obj.Some? && GetString(obj.value, "text").Err? ==>
        f.Failed? && f.exception.cause.Some? && f.exception.cause.value.kind == JSONException
  {
    match support.parse(body)
    case None => AsyncFailure(Error(JSONException, ""))
    case Some(obj) =>
      match GetString(obj, "text")
      case Err(e) => AsyncFailure(e)
      case Ok(output) => Completed(TranscriptionResult(output, Some(TranscriptionAttributes(OptString(obj, "language"), OptDouble(obj, "duration")))))
  }

  /** The `thenApply` of `transcribe`. */
  function TranscriptionReply(exchange: Exchange, verbose: bool, support: TextSupport): (f: Future<TranscriptionResult>)
    ensures exchange.Broken? ==> f == Failed(CompletionWrap(exchange.exception))
    ensures exchange.Answered? && exchange.response.status != 200 ==>
      f.Failed? && f.exception.kind == CompletionException &&
      f.exception.cause == Some(Error(ModuleException(Transcription), UnexpectedStatus(exchange.response.status, OpenAiOrigin)))
    ensures exchange.Answered? && exchange.response.status == 200 && !verbose ==>
      f == Completed(TranscriptionResult(support.decode(exchange.response.content), None))
    ensures exchange.Answered? && exchange.response.status == 200 && verbose ==>
      f == VerboseResult(support.decode(exchange.response.content), support)
  {
    match exchange
    case Broken(e) => AsyncFailure(e)
    case Answered(response) =>
      if 200 != response.status then
        AsyncFailure(Error(ModuleException(Transcription), UnexpectedStatus(response.status, OpenAiOrigin)))
      else if verbose then VerboseResult(support.decode(response.content), support)
      else Completed(TranscriptionResult(support.decode(response.content), None))
  }

  /** A completed transcription carries attributes exactly when verbose
      output was asked for. */
  lemma AttributesIffVerbose(exchange: Exchange, verbose: bool, support: TextSupport)
    ensures var f := TranscriptionReply(exchange, verbose, support);
      f.Completed? ==> (f.value.attributes.Some? <==> verbose)
  {
    if exchange.Answered? && exchange.response.status == 200 && verbose {
      var body := support.decode(exchange.response.content);
      assert TranscriptionReply(exchange, verbose, support) == VerboseResult(body, support);
    }
  }

  /** Two failed answers with the same message had the same status. */
  lemma FailureNamesTheStatus(a: HttpResponse, b: HttpResponse, verbose: bool, support: TextSupport)
    requires a.status != 200 && b.status != 200
    requires TranscriptionReply(Answered(a), verbose, support) == TranscriptionReply(Answered(b), verbose, support)
    ensures a.status == b.status
  {
    UnexpectedStatusNamesTheStatus(a.status, b.status, OpenAiOrigin);
  }

  class OpenAiConnection {
    const apiKey: string
    const client: Client
    const apiUri: string
    const support: TextSupport

    constructor(apiKey: string, client: Client, apiUri: string, support: TextSupport)
      ensures this.apiKey == apiKey && this.client == client && this.apiUri == apiUri && this.support == support
    {
      this.apiKey := apiKey;
      this.client := client;
      this.apiUri := apiUri;
      this.support := support;
    }

    /** `validate()`: the health check on the connection's own client, key
        and base URI, which passes exactly on a 200 answer. */
    function Validate(): (r: Result<()>)
      ensures r == HealthCheck(client, apiKey, apiUri)
      ensures r.Ok? <==>
        client(HealthCheckRequest(apiKey, apiUri)).Answered? && client(HealthCheckRequest(apiKey, apiUri)).response.status == 200
    {
      HealthCheck(client, apiKey, apiUri)
    }

    /** The part list of `transcribe`, built by conditional `add`s. */
    method TranscriptionParts(audioBytes: seq<Byte>, mediaType: MediaType,
                              fineTuningPrompt: Option<string>, params: SttParams)
      returns (parts: seq<HttpPart>)
      ensures IsTranscriptionForm(parts, audioBytes, mediaType, fineTuningPrompt, params)
    {
      var responseFormat := "text";
      if params.verbose {
        responseFormat := "verbose_json";
      }
      var modelPart := TextPart("model", params.modelName);
      var formatPart := TextPart("response_format", responseFormat);
      var filePart := FilePart(AudioUtils.GuessAudioFileExtension(mediaType), audioBytes, mediaType);
      var promptPart := TextPart("prompt", fineTuningPrompt.GetOr(""));
      var temperaturePart := TextPart("temperature", params.temperatureText);
      var languagePart := TextPart("language", params.language.GetOr(""));
      parts := [];
      parts := parts + [modelPart];
      parts := parts + [formatPart];
      parts := parts + [filePart];
      ghost var fixed := parts;
      if fineTuningPrompt.Some? && fineTuningPrompt.value != "" {
        parts := parts + [promptPart];
      }
      ghost var withPrompt := parts;
      if params.temperature > 0.0 {
        parts := parts + [temperaturePart];
      }
      ghost var withTemperature := parts;
      if params.language.Some? && params.language.value != "" {
        parts := parts + [languagePart];
      }
      assert fixed == [modelPart, formatPart, filePart];
      assert withPrompt == fixed + OptionalPart(promptPart, HasText(fineTuningPrompt));
      assert withTemperature == withPrompt + OptionalPart(temperaturePart, params.temperature > 0.0);
      assert parts == withTemperature + OptionalPart(languagePart, HasText(params.language));
      FormIsTranscriptionForm(audioBytes, mediaType, fineTuningPrompt, params);
    }

    /** `transcribe(audioContent, fineTuningPrompt, params)`: the request it
        sends, if it gets that far, and what it gives back. A stream that
        cannot be read fails before anything is sent. */
    method Transcribe(audio: AudioContent, fineTuningPrompt: Option<string>, params: SttParams)
      returns (sent: Option<HttpRequest>, call: Call<TranscriptionResult>)
      ensures audio.stream.failure.Some? ==> sent.None? && call == Threw(ReadFailure(audio.stream.failure.value))
      ensures audio.stream.failure.None? ==>
        sent.Some? && sent.value.verb == POST && sent.value.uri == Resolve(apiUri, "audio/transcriptions") &&
        sent.value.headers == [Authorization(apiKey)] && sent.value.entity.Multipart? &&
        IsTranscriptionForm(sent.value.entity.parts, audio.stream.data, audio.mediaType, fineTuningPrompt, params) &&
        call == Returned(TranscriptionReply(client(sent.value), params.verbose, support))
    {
      var transcriptionEndpoint := Resolve(apiUri, "audio/transcriptions");
      if audio.stream.failure.Some? {
        return None, Threw(ReadFailure(audio.stream.failure.value));
      }
      var audioBytes := audio.stream.data;
      var parts := TranscriptionParts(audioBytes, audio.mediaType, fineTuningPrompt, params);
      var request := HttpRequest(POST, transcriptionEndpoint, [Authorization(apiKey)], Multipart(parts));
      sent := Some(request);
      call := Returned(TranscriptionReply(client(request), params.verbose, support));
    }

    /** `generate(text, params)`: the speech request and the future of its
        answer, failing with GENERATION on a status other than 200. */
    method Generate(text: string, params: TtsParams) returns (request: HttpRequest, future: Future<seq<Byte>>)
      ensures request.verb == POST && request.uri == Resolve(apiUri, "audio/speech")
      ensures request.headers == [Authorization(apiKey), ("Content-Type", "application/json")]
      ensures request.entity.JsonEntity? && SpeechFields(request.entity.fields, Some(JString(text)), params)
      ensures future == SpeechReply(client(request), ModuleException(Generation))
      ensures var exchange := client(request);
        exchange.Answered? && exchange.response.status != 200 ==>
          future.Failed? && future.exception.cause.Some? &&
          IsModuleError(future.exception.cause.value, Generation) &&
          Contains(future.exception.cause.value.message, IntToString(exchange.response.status))
    {
      request := SpeechRequest(apiKey, apiUri, text, params);
      future := SpeechReply(client(request), ModuleException(Generation));
    }
  }
}
