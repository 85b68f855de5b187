/** What both OpenAI connections share: the health check against the
    models endpoint, the speech request built as a `JSONObject`, and the
    mapping of the speech response. */
module OpenAiApi {
  import opened Common
  import opened Strings
  import opened Http

  const OpenAiOrigin := "OpenAI API"

  /** The GET request `validate` sends. */
  function HealthCheckRequest(apiKey: string, apiUri: string): HttpRequest {
    HttpRequest(GET, Resolve(apiUri, "models"), [Authorization(apiKey)], NoEntity)
  }

  /** `validate()`: a 200 answer from the models endpoint passes; another
      status, an `IOException` or a `TimeoutException` becomes a
      `ConnectionException`; anything else escapes as it is. */
  function HealthCheck(client: Client, apiKey: string, apiUri: string): (r: Result<()>)
    ensures var exchange := client(HealthCheckRequest(apiKey, apiUri));
      r.Ok? <==> exchange.Answered? && exchange.response.status == 200
    ensures var exchange := client(HealthCheckRequest(apiKey, apiUri));
      exchange.Answered? && exchange.response.status != 200 ==>
        r == Err(Error(ConnectionException, UnexpectedStatus(exchange.response.status, Resolve(apiUri, "models"))))
    ensures var exchange := client(HealthCheckRequest(apiKey, apiUri));
      exchange.Broken? ==>
        r.Err? &&
        (exchange.exception.kind in {IOException, TimeoutException} ==>
          r.error.kind == ConnectionException && r.error.cause == Some(exchange.exception)) &&
        (exchange.exception.kind !in {IOException, TimeoutException} ==> r.error == exchange.exception)
  {
    var endpoint := Resolve(apiUri, "models");
    match client(HealthCheckRequest(apiKey, apiUri))
    case Answered(response) =>
      if response.status != 200 then Err(Error(ConnectionException, UnexpectedStatus(response.status, endpoint))) else Ok(())
    case Broken(e) =>
      if e.kind == IOException || e.kind == TimeoutException then Err(Wrapping(ConnectionException, e.message, e)) else Err(e)
  }

  // ------------------------------------------------------------ speech

  /** The text-to-speech options (`TTSParamsModelDetails`), each possibly
      `null`; the speed is the number Mule hands over. */
  datatype TtsParams = TtsParams(
    modelName: Option<string>,
    voice: Option<string>,
    responseFormat: Option<string>,
    speed: Option<Json>)

  const SpeechKeys: set<string> := {"model", "input", "voice", "response_format", "speed"}

  /** A nullable string as a `JSONObject.put` argument. */
  function Text(s: Option<string>): Option<Json> {
    match s
    case None => None
    case Some(v) => Some(JString(v))
  }

  /** The value a key holds, or `None` when it is absent. */
  function Get(fields: map<string, Json>, key: string): Option<Json> {
    if key in fields then Some(fields[key]) else None
  }

  /** The JSON object of a speech request: no key but the speech keys, the
      given input, and the model, voice, response format and speed of the
      options, where a `null` option leaves its key out. */
  predicate SpeechFields(fields: map<string, Json>, input: Option<Json>, params: TtsParams) {
    (forall k :: k in fields ==> k in SpeechKeys) &&
    Get(fields, "model") == Text(params.modelName) &&
    Get(fields, "input") == input &&
    Get(fields, "voice") == Text(params.voice) &&
    Get(fields, "response_format") == Text(params.responseFormat) &&
    Get(fields, "speed") == params.speed
  }

  /** The speech request of `generate`: a JSON object with the model, the
      input text, the voice, the response format and the speed, where a
      `null` option leaves its key out, posted to "audio/speech". */
  method SpeechRequest(apiKey: string, apiUri: string, text: string, params: TtsParams) returns (request: HttpRequest)
    ensures request.verb == POST && request.uri == Resolve(apiUri, "audio/speech")
    ensures request.headers == [Authorization(apiKey), ("Content-Type", "application/json")]
    ensures request.entity.JsonEntity? && SpeechFields(request.entity.fields, Some(JString(text)), params)
  {
    var speechEndpoint := Resolve(apiUri, "audio/speech");
    var requestObject := new JsonObject();
    requestObject.Put("model", Text(params.modelName));
    requestObject.Put("input", Some(JString(text)));
    requestObject.Put("voice", Text(params.voice));
    requestObject.Put("response_format", Text(params.responseFormat));
    requestObject.Put("speed", params.speed);
    request := HttpRequest(POST, speechEndpoint, [Authorization(apiKey), ("Content-Type", "application/json")],
                           JsonEntity(requestObject.fields));
  }

  /** The `thenApply` of `generate`: a 200 answer completes with the body,
      another status fails with an exception of `failureKind` naming it,
      and a transport failure fails the future with it. */
  function SpeechReply(exchange: Exchange, failureKind: ExceptionKind): (f: Future<seq<Byte>>)
    ensures exchange.Answered? && exchange.response.status == 200 ==> f == Completed(exchange.response.content)
    ensures exchange.Answered? && exchange.response.status != 200 && failureKind != CompletionException ==>
      f.Failed? && f.exception.kind == CompletionException &&
      f.exception.cause == Some(Error(failureKind, UnexpectedStatus(exchange.response.status, OpenAiOrigin)))
    ensures exchange.Broken? ==> f == Failed(CompletionWrap(exchange.exception))
  {
    match exchange
    case Broken(e) => AsyncFailure(e)
    case Answered(response) =>
      if response.status != 200 then AsyncFailure(Error(failureKind, UnexpectedStatus(response.status, OpenAiOrigin)))
      else Completed(response.content)
  }

  /** The `file` part: "speech." and the guessed extension as file name,
      the media type as content type, the uploaded bytes as content. */
  function FilePart(extension: string, audioBytes: seq<Byte>, mediaType: MediaType): (p: HttpPart)
    ensures p.name == "file" && p.fileName == Some("speech." + extension)
    ensures p.content == audioBytes && p.contentType == mediaType.ToString()
  {
    HttpPart("file", Some("speech." + extension), audioBytes, mediaType.ToString())
  }

  /** `IOUtils.toByteArray` of a failing stream: an unchecked exception
      around the read failure, raised before any request is sent. */
  function ReadFailure(cause: Throwable): (e: Throwable)
    ensures e.kind == RuntimeException && e.cause == Some(cause)
  {
    Wrapping(RuntimeException, cause.message, cause)
  }
}
