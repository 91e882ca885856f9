/** The generation endpoint (app/api/ai/generate/route.ts). The request's configuration is
    laid over `DEFAULT_AI_CONFIG`; the provider's output then goes back either as one JSON
    body or as a stream of server-sent events, one `data:` event per chunk and a final
    `[DONE]` event. The provider itself is outside the model: its result, its chunks and
    what it throws are arguments, and so is the outcome of reading the request body. */
module GenerateRoute {
  import opened Common
  import opened JsonStrings
  import opened AiProviders

  // ===========================================================================
  // { ...DEFAULT_AI_CONFIG, ...config }

  /** `Partial<AIProviderConfig>` as the request supplies it; an absent key is `None`. */
  datatype ConfigOverrides = ConfigOverrides(
    provider: Option<string>,
    model: Option<string>,
    apiKey: Option<string>,
    temperature: Option<real>,
    maxTokens: Option<int>)

  const NoOverrides: ConfigOverrides := ConfigOverrides(None, None, None, None, None)

  /** A supplied value, or the one underneath. */
  function Pick<T>(supplied: Option<T>, underneath: T): T {
    if supplied.Some? then supplied.value else underneath
  }

  /** `{ ...defaults, ...config }`. */
  function MergeConfig(defaults: ProviderConfig, config: Option<ConfigOverrides>): (r: ProviderConfig)
    ensures config.None? ==> r == defaults
  {
    match config
    case None => defaults
    case Some(o) =>
      ProviderConfig(
        Pick(o.provider, defaults.provider),
        Pick(o.model, defaults.model),
        if o.apiKey.Some? then o.apiKey else defaults.apiKey,
        if o.temperature.Some? then o.temperature else defaults.temperature,
        if o.maxTokens.Some? then o.maxTokens else defaults.maxTokens)
  }

  /** `{ ...under, ...over }` for two partial configurations. */
  function Layer(under: ConfigOverrides, over: ConfigOverrides): ConfigOverrides {
    ConfigOverrides(
      if over.provider.Some? then over.provider else under.provider,
      if over.model.Some? then over.model else under.model,
      if over.apiKey.Some? then over.apiKey else under.apiKey,
      if over.temperature.Some? then over.temperature else under.temperature,
      if over.maxTokens.Some? then over.maxTokens else under.maxTokens)
  }

  /** Every field the request supplies is taken as supplied; every other is the default. */
  lemma MergeTakesSuppliedFields(defaults: ProviderConfig, o: ConfigOverrides)
    ensures var r := MergeConfig(defaults, Some(o));
            (o.provider.Some? ==> r.provider == o.provider.value) &&
            (o.provider.None? ==> r.provider == defaults.provider) &&
            (o.model.Some? ==> r.model == o.model.value) &&
            (o.model.None? ==> r.model == defaults.model) &&
            (o.apiKey.Some? ==> r.apiKey == o.apiKey) &&
            (o.apiKey.None? ==> r.apiKey == defaults.apiKey) &&
            (o.temperature.Some? ==> r.temperature == o.temperature) &&
            (o.temperature.None? ==> r.temperature == defaults.temperature) &&
            (o.maxTokens.Some? ==> r.maxTokens == o.maxTokens) &&
            (o.maxTokens.None? ==> r.maxTokens == defaults.maxTokens)
  {
  }

  /** An empty configuration object changes nothing. */
  lemma MergeNothingSupplied(defaults: ProviderConfig)
    ensures MergeConfig(defaults, Some(NoOverrides)) == defaults
  {
  }

  /** Spreading two partial configurations one after the other is spreading their layering. */
  lemma MergeComposes(defaults: ProviderConfig, a: ConfigOverrides, b: ConfigOverrides)
    ensures MergeConfig(MergeConfig(defaults, Some(a)), Some(b)) == MergeConfig(defaults, Some(Layer(a, b)))
  {
  }

  /** A configuration that supplies every field does not depend on the defaults. */
  lemma MergeFullOverride(d1: ProviderConfig, d2: ProviderConfig, o: ConfigOverrides)
    requires o.provider.Some? && o.model.Some? && o.apiKey.Some? && o.temperature.Some? && o.maxTokens.Some?
    ensures MergeConfig(d1, Some(o)) == MergeConfig(d2, Some(o))
  {
  }

  /** With no configuration in the request, the application's defaults are used, so the
      Anthropic provider is built and the key comes from the environment. */
  lemma NoConfigUsesDefaults(env: map<string, string>)
    ensures MergeConfig(DefaultConfig, None) == DefaultConfig
    ensures CreateAIProvider(DefaultConfig, env) == Ok(AnthropicClient(EnvOrEmpty(env, "ANTHROPIC_API_KEY")))
  {
  }

  // ===========================================================================
  // Server-sent events

  const DataPrefix: string := "data: "
  const DoneMarker: string := "[DONE]"
  const EventEnd: string := "\n\n"

  /** `JSON.stringify({ content: chunk })`. */
  function ContentPayload(chunk: string): (r: string)
    ensures |r| > 0 && r[0] == '{'
    ensures LineFeed !in r
  {
    QuoteHasNoLineFeed(chunk);
    "{\"content\":" + Quote(chunk) + "}"
  }

  /** The event written for one chunk. */
  function Frame(chunk: string): string {
    DataPrefix + ContentPayload(chunk) + EventEnd
  }

  /** The event written after the last chunk. */
  const DoneFrame: string := DataPrefix + DoneMarker + EventEnd

  /** The events for the chunks, one each, in order. */
  function Frames(chunks: seq<string>): (r: seq<string>)
    ensures |r| == |chunks|
  {
    seq(|chunks|, k requires 0 <= k < |chunks| => Frame(chunks[k]))
  }

  /** How the provider's stream ended. */
  datatype Thrown = ErrorObject(message: string) | OtherValue

  datatype StreamEnd = Finished | Threw(error: Thrown)

  /** What the response stream carries: its events in order, then either a close or an
      error. */
  datatype EventStream = EventStream(events: seq<string>, closed: bool, failure: Option<Thrown>)

  /** The stream for the given chunks and ending. */
  function StreamOf(chunks: seq<string>, ending: StreamEnd): (s: EventStream)
    ensures s.closed <==> s.failure.None?
  {
    match ending
    case Finished => EventStream(Frames(chunks) + [DoneFrame], true, None)
    case Threw(e) => EventStream(Frames(chunks), false, Some(e))
  }

  /** The stream's `start`: every chunk is framed and enqueued as it arrives; after the
      last one the `[DONE]` event is enqueued and the stream closed, while a throw errors
      the stream with nothing more enqueued. */
  method Pump(chunks: seq<string>, ending: StreamEnd) returns (s: EventStream)
    ensures s == StreamOf(chunks, ending)
    ensures |s.events| == |chunks| + (if ending.Finished? then 1 else 0)
    ensures forall k :: 0 <= k < |chunks| ==> s.events[k] == Frame(chunks[k])
    ensures ending.Finished? ==> s.events[|chunks|] == DoneFrame
  {
    var events: seq<string> := [];
    for i := 0 to |chunks|
      invariant |events| == i
      invariant forall k :: 0 <= k < i ==> events[k] == Frame(chunks[k])
    {
      events := events + [Frame(chunks[i])];
    }
    assert events == Frames(chunks);
    match ending {
      case Finished =>
        events := events + [DoneFrame];
        s := EventStream(events, true, None);
      case Threw(e) =>
        s := EventStream(events, false, Some(e));
    }
  }

  /** What `generateContentStream` yields: when no client can be built it throws before the
      first chunk; otherwise it passes the provider's chunks and ending through. */
  function StreamSource(config: ProviderConfig, env: map<string, string>, chunks: seq<string>, ending: StreamEnd):
    (r: (seq<string>, StreamEnd))
    ensures CreateAIProvider(config, env).Err? ==>
              r == ([], Threw(ErrorObject(CreateAIProvider(config, env).error)))
    ensures CreateAIProvider(config, env).Ok? ==> r == (chunks, ending)
  {
    match CreateAIProvider(config, env)
    case Err(m) => ([], Threw(ErrorObject(m)))
    case Ok(_) => (chunks, ending)
  }

  // ===========================================================================
  // POST

  /** `AIGenerationResponse`. */
  datatype GenerationResponse = GenerationResponse(content: string, model: string, tokensUsed: Option<int>)

  /** The request body: the generation request, the optional partial configuration and
      whether to stream (an absent flag is false). */
  datatype RequestBody = RequestBody(request: GenerationRequest, config: Option<ConfigOverrides>, stream: bool)

  /** What the provider would do for this request: its one-shot result, and its streamed
      chunks and ending. */
  datatype ProviderBehaviour = ProviderBehaviour(
    generated: Result<GenerationResponse, Thrown>,
    chunks: seq<string>,
    ending: StreamEnd)

  datatype Response =
    | Generated(result: GenerationResponse)   // status 200, the result as JSON
    | Failed(status: nat, error: string)      // `{ error }` with that status
    | Streamed(stream: EventStream)           // status 200, `text/event-stream`

  /** The error body's text: an `Error`'s message, or the fixed fallback. */
  function ErrorMessage(e: Thrown): string {
    match e
    case ErrorObject(m) => m
    case OtherValue => "Failed to generate content"
  }

  /** The route's answer. */
  function Post(body: Result<RequestBody, Thrown>, env: map<string, string>, provider: ProviderBehaviour): Response {
    match body
    case Err(e) => Failed(500, ErrorMessage(e))
    case Ok(b) =>
      var config := MergeConfig(DefaultConfig, b.config);
      if b.stream then
        var source := StreamSource(config, env, provider.chunks, provider.ending);
        Streamed(StreamOf(source.0, source.1))
      else
        match CreateAIProvider(config, env)
        case Err(m) => Failed(500, m)
        case Ok(_) =>
          match provider.generated
          case Ok(result) => Generated(result)
          case Err(e) => Failed(500, ErrorMessage(e))
  }

  /** Every failure is a 500 carrying the thrown message: an unreadable body, a provider
      that cannot be built, or a failed generation; a streamed request never fails. */
  lemma PostFailures(body: Result<RequestBody, Thrown>, env: map<string, string>, provider: ProviderBehaviour)
    ensures Post(body, env, provider).Failed? ==> Post(body, env, provider).status == 500
    ensures Post(body, env, provider).Failed? <==>
              body.Err? ||
              (!body.value.stream &&
               (CreateAIProvider(MergeConfig(DefaultConfig, body.value.config), env).Err? || provider.generated.Err?))
    ensures body.Err? ==> Post(body, env, provider) == Failed(500, ErrorMessage(body.error))
    ensures body.Ok? && !body.value.stream && provider.generated.Err? &&
            CreateAIProvider(MergeConfig(DefaultConfig, body.value.config), env).Ok? ==>
              Post(body, env, provider) == Failed(500, ErrorMessage(provider.generated.error))
  {
  }

  /** A streamed request whose provider cannot be built still answers 200: the error
      reaches the client as an errored stream with no events and no `[DONE]`. */
  lemma StreamedConstructionError(b: RequestBody, env: map<string, string>, provider: ProviderBehaviour)
    requires b.stream
    requires CreateAIProvider(MergeConfig(DefaultConfig, b.config), env).Err?
    ensures Post(Ok(b), env, provider) ==
              Streamed(EventStream([], false,
                Some(ErrorObject(CreateAIProvider(MergeConfig(DefaultConfig, b.config), env).error))))
  {
  }
}
