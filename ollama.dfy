/** The request-building and error-reporting logic of the Ollama engine
    (`OllamaEngine`, src/engine/ollama.ts): how the configuration resolves to a
    client and a request body, and what text a failed request is reported with.
    The HTTP call and the removal of the `<think>` section are parameters. */
module Ollama {
  import opened Wrappers
  import opened Prompt

  const DefaultBaseURL: string := "http://localhost:11434"
  const DefaultModel: string := "llama3.2:3b"
  const GeneratePath: string := "/api/generate"
  const ContentTypeHeader: string := "Content-Type"
  const JsonMediaType: string := "application/json"
  const ErrorPrefix: string := "Ollama provider error: "
  const ThinkTag: string := "think"

  /** JavaScript's `a ?? b`: `a` unless it is `undefined` or `null`. */
  function NullishCoalesce<T>(a: Option<T>, b: T): T
  {
    match a
    case Some(v) => v
    case None => b
  }

  /** JavaScript's `a || b` on a string that may be absent: `a` unless it is falsy,
      and the falsy strings are the absent one and the empty one. */
  function LogicalOr(a: Option<string>, b: string): string
  {
    if a.Some? && a.value != "" then a.value else b
  }

  /** `{ ...o }` of an object that may be absent: spreading `undefined` adds nothing. */
  function Spread(o: Option<map<string, string>>): map<string, string>
  {
    NullishCoalesce(o, map[])
  }

  /** The part of the engine configuration that this file reads. */
  datatype Config = Config(
    baseURL: Option<string>,
    model: Option<string>,
    customHeaders: Option<map<string, string>>)

  /** The settings the HTTP client is created with. */
  datatype Client = Client(baseURL: string, headers: map<string, string>)

  /** An engine: the configuration it was given and the client built from it. */
  datatype Engine = Engine(config: Config, client: Client)

  /** The JSON body of `POST /api/generate`. */
  datatype GenerateRequest = GenerateRequest(model: string, prompt: string, stream: bool)

  /** `err.response.data` of a failed request: the server's JSON error payload. */
  datatype ErrorBody = ErrorBody(error: Option<string>)

  /** `err.response` of a failed request: present when the server answered. */
  datatype ErrorResponse = ErrorResponse(data: Option<ErrorBody>)

  /** The error a failed request is rejected with. */
  datatype TransportError = TransportError(response: Option<ErrorResponse>, message: string)

  /** What the POST produced: the `response` field of the reply, or the error. */
  datatype Reply = Received(response: string) | Failed(error: TransportError)

  /** `config.baseURL || 'http://localhost:11434'`. */
  function ResolveBaseURL(baseURL: Option<string>): (url: string)
    ensures baseURL.Some? && baseURL.value != "" ==> url == baseURL.value
    ensures baseURL.None? || baseURL.value == "" ==> url == DefaultBaseURL
  {
    LogicalOr(baseURL, DefaultBaseURL)
  }

  /** `this.config.model ?? 'llama3.2:3b'`: a configured model is kept even when empty. */
  function ResolveModel(model: Option<string>): (name: string)
    ensures model.Some? ==> name == model.value
    ensures model.None? ==> name == DefaultModel
  {
    NullishCoalesce(model, DefaultModel)
  }

  /** The two defaults differ only on the empty string: an empty model is sent as it is,
      an empty base URL falls back to the local server. */
  lemma EmptyModelKeptEmptyBaseURLReplaced()
    ensures ResolveModel(Some("")) == ""
    ensures ResolveBaseURL(Some("")) == DefaultBaseURL
  {
  }

  /** `??` and `||` with the same operands agree except when the left one is the empty string. */
  lemma CoalesceAgreesWithOr(a: Option<string>, b: string)
    ensures NullishCoalesce(a, b) != LogicalOr(a, b) <==> a == Some("") && b != ""
  {
  }

  /** `{ 'Content-Type': 'application/json', ...config.customHeaders }`: every custom
      header with its own value, the JSON content type unless a custom header of that
      name replaces it, and nothing else. */
  function MergeHeaders(customHeaders: Option<map<string, string>>): (headers: map<string, string>)
    ensures headers.Keys == {ContentTypeHeader} + Spread(customHeaders).Keys
    ensures forall name :: name in Spread(customHeaders) ==>
      headers[name] == Spread(customHeaders)[name]
    ensures ContentTypeHeader !in Spread(customHeaders) ==>
      headers[ContentTypeHeader] == JsonMediaType
  {
    map[ContentTypeHeader := JsonMediaType] + Spread(customHeaders)
  }

  /** Giving the merged headers back as custom headers merges to the same headers. */
  lemma MergeHeadersIdempotent(customHeaders: Option<map<string, string>>)
    ensures MergeHeaders(Some(MergeHeaders(customHeaders))) == MergeHeaders(customHeaders)
  {
    var h := MergeHeaders(customHeaders);
    var h2 := MergeHeaders(Some(h));
    assert h2.Keys == h.Keys;
    assert forall name :: name in h2 ==> h2[name] == h[name];
  }

  /** The constructor of `OllamaEngine`: keeps the configuration and creates the client. */
  function NewEngine(config: Config): (engine: Engine)
    ensures engine.config == config
    ensures engine.client.baseURL == ResolveBaseURL(config.baseURL)
    ensures engine.client.headers == MergeHeaders(config.customHeaders)
  {
    Engine(config, Client(ResolveBaseURL(config.baseURL), MergeHeaders(config.customHeaders)))
  }

  /** The `params` object posted for a conversation. */
  function BuildRequest(config: Config, messages: seq<Message>): (request: GenerateRequest)
    ensures !request.stream
    ensures request.prompt == BuildPrompt(messages)
    ensures config.model.Some? ==> request.model == config.model.value
    ensures config.model.None? ==> request.model == DefaultModel
  {
    GenerateRequest(ResolveModel(config.model), BuildPrompt(messages), false)
  }

  /** `err.response?.data?.error`: the server's error string, when every link of the chain is present. */
  function ServerError(err: TransportError): (error: Option<string>)
    ensures error.Some? <==>
      err.response.Some? && err.response.value.data.Some? && err.response.value.data.value.error.Some?
    ensures error.Some? ==> error.value == err.response.value.data.value.error.value
  {
    match err.response
    case None => None
    case Some(response) =>
      match response.data
      case None => None
      case Some(data) => data.error
  }

  /** `err.response?.data?.error ?? err.message`. */
  function ErrorDetail(err: TransportError): (detail: string)
    ensures ServerError(err).Some? ==> detail == ServerError(err).value
    ensures ServerError(err).None? ==> detail == err.message
  {
    NullishCoalesce(ServerError(err), err.message)
  }

  /** The message of the error `generateCommitMessage` throws: the fixed prefix, then the
      server's error string if it sent one (even an empty one), else the transport's message. */
  function ErrorMessage(err: TransportError): (text: string)
    ensures ErrorPrefix <= text
    ensures ServerError(err).Some? ==> text[|ErrorPrefix|..] == ServerError(err).value
    ensures ServerError(err).None? ==> text[|ErrorPrefix|..] == err.message
  {
    ErrorPrefix + ErrorDetail(err)
  }

  /** Reads the detail back out of an error message; None for text without the prefix. */
  function StripErrorPrefix(text: string): (detail: Option<string>)
    ensures detail.Some? <==> ErrorPrefix <= text
    ensures detail.Some? ==> ErrorPrefix + detail.value == text
  {
    if ErrorPrefix <= text then Some(text[|ErrorPrefix|..]) else None
  }

  /** The message gives back exactly the detail it was built from. */
  lemma ErrorMessageRoundTrip(err: TransportError)
    ensures StripErrorPrefix(ErrorMessage(err)) == Some(ErrorDetail(err))
  {
    var text := ErrorMessage(err);
    assert text[|ErrorPrefix|..] == ErrorDetail(err);
  }

  /** Two errors are reported with the same message exactly when their details agree,
      so nothing but the detail reaches the caller. */
  lemma ErrorMessageOnlyKeepsDetail(e1: TransportError, e2: TransportError)
    ensures ErrorMessage(e1) == ErrorMessage(e2) <==> ErrorDetail(e1) == ErrorDetail(e2)
  {
    if ErrorMessage(e1) == ErrorMessage(e2) {
      ErrorMessageRoundTrip(e1);
      ErrorMessageRoundTrip(e2);
    }
  }

  /** A server payload `{ error: "model not found" }` is reported as that string,
      whatever the transport's own message says. */
  lemma ModelNotFoundReported(message: string)
    ensures ErrorMessage(TransportError(Some(ErrorResponse(Some(ErrorBody(Some("model not found"))))), message))
      == "Ollama provider error: model not found"
  {
  }

  /** A failure without a server answer is reported with the transport's message. */
  lemma TransportMessageReported(message: string)
    ensures ErrorMessage(TransportError(None, message)) == "Ollama provider error: " + message
  {
  }

  /** `generateCommitMessage`: posts the request built from the messages through the
      engine's client and either returns the reply's text with the think section removed
      by `strip` or fails with the normalised message. `post` stands for the HTTP call
      and `strip` for `removeContentTags`. */
  function Generate(
    engine: Engine,
    messages: seq<Message>,
    post: (Client, string, GenerateRequest) -> Reply,
    strip: (string, string) -> string): (r: Result<string, string>)
    ensures var reply := post(engine.client, GeneratePath, BuildRequest(engine.config, messages));
      && (r.Success? <==> reply.Received?)
      && (r.Success? ==> r.value == strip(reply.response, ThinkTag))
      && (r.Failure? ==> r.error == ErrorMessage(reply.error))
      && (r.Failure? ==> StripErrorPrefix(r.error) == Some(ErrorDetail(reply.error)))
  {
    match post(engine.client, GeneratePath, BuildRequest(engine.config, messages))
    case Received(text) => Success(strip(text, ThinkTag))
    case Failed(err) =>
      ErrorMessageRoundTrip(err);
      Failure(ErrorMessage(err))
  }
}
