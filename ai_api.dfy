/**
 * The provider coordinator of `src/lib/aiApi.ts`: a module-level
 * configuration chooses between the canned matcher, the local model and a
 * remote backend; requests to the latter two fall back to the canned matcher
 * when they fail.
 *
 * The network is not modelled: what the backend's `/api/generate` and
 * `/api/health` requests yield are values (`FetchResult`), and everything the
 * outside world contributes to one call is gathered in a `World`.
 */
module AiApi {
  import opened Wrappers
  import opened Strings
  import opened MockApi
  import opened TransformersApi

  datatype Provider = Mock | Transformers | Backend

  /** `AIConfig`; an absent optional field is `None`. */
  datatype AIConfig = AIConfig(provider: Provider, backendUrl: Option<string>, apiKey: Option<string>)

  /** A `Partial<AIConfig>`: `None` is a field the patch does not supply; a
      supplied optional field may itself be `undefined` (`Some(None)`). */
  datatype ConfigPatch = ConfigPatch(
    provider: Option<Provider>,
    backendUrl: Option<Option<string>>,
    apiKey: Option<Option<string>>)

  /** The configuration the module starts with: only the provider, `mock`. */
  const InitialConfig := AIConfig(Mock, None, None)

  /** `{ ...config, ...patch }`: every supplied field replaces the old one,
      every other field is kept. */
  function Merge(config: AIConfig, patch: ConfigPatch): (r: AIConfig)
    ensures r.provider == (if patch.provider.Some? then patch.provider.value else config.provider)
    ensures r.backendUrl == (if patch.backendUrl.Some? then patch.backendUrl.value else config.backendUrl)
    ensures r.apiKey == (if patch.apiKey.Some? then patch.apiKey.value else config.apiKey)
  {
    AIConfig(
      patch.provider.GetOr(config.provider),
      patch.backendUrl.GetOr(config.backendUrl),
      patch.apiKey.GetOr(config.apiKey))
  }

  /** Spreading `p` and then `q`: the fields of `q` win. */
  function Combine(p: ConfigPatch, q: ConfigPatch): ConfigPatch {
    ConfigPatch(
      if q.provider.Some? then q.provider else p.provider,
      if q.backendUrl.Some? then q.backendUrl else p.backendUrl,
      if q.apiKey.Some? then q.apiKey else p.apiKey)
  }

  /** An empty patch changes nothing. */
  lemma MergeEmpty(config: AIConfig)
    ensures Merge(config, ConfigPatch(None, None, None)) == config
  {
  }

  /** Applying the same patch twice is applying it once. */
  lemma MergeIdempotent(config: AIConfig, patch: ConfigPatch)
    ensures Merge(Merge(config, patch), patch) == Merge(config, patch)
  {
  }

  /** Two updates in a row are one update with the combined patch. */
  lemma MergeSequence(config: AIConfig, p: ConfigPatch, q: ConfigPatch)
    ensures Merge(Merge(config, p), q) == Merge(config, Combine(p, q))
  {
  }

  /** JavaScript truthiness of an optional string: present and non-empty. */
  predicate Truthy(s: Option<string>)
    ensures Truthy(s) <==> s != None && s != Some("")
  {
    s.Some? && s.value != ""
  }

  /** The fields of the backend's JSON reply the mapping reads; a field that
      is missing (or `null`) is `None`. */
  datatype BackendData = BackendData(
    id: Option<string>,
    content: Option<string>,
    message: Option<string>,
    code: Option<string>,
    language: Option<string>,
    timestamp: Option<string>)

  /** What a `fetch` yields: a rejection, or a response whose body parsed to
      the given data, or failed to parse (`None`). */
  datatype FetchResult =
    | Rejected
    | Responded(ok: bool, statusText: string, body: Option<BackendData>)

  /** The reply message built from the backend's data: missing or empty
      fields get their defaults. */
  function MapBackendReply(data: BackendData, freshId: string, now: int): (m: Message)
    ensures WellFormedReply(m)
    ensures m.id == (if Truthy(data.id) then data.id.value else freshId)
    ensures Truthy(data.content) ==> m.content == data.content.value
    ensures !Truthy(data.content) && data.message.Some? ==> m.content == data.message.value
    ensures m.code == data.code
    ensures m.language == Some(if Truthy(data.language) then data.language.value else "python")
    ensures m.timestamp == (if Truthy(data.timestamp) then Parsed(data.timestamp.value) else Clock(now))
  {
    Message(
      if Truthy(data.id) then data.id.value else freshId,
      Assistant,
      if Truthy(data.content) then data.content.value else data.message.GetOr(""),
      data.code,
      Some(if Truthy(data.language) then data.language.value else "python"),
      if Truthy(data.timestamp) then Parsed(data.timestamp.value) else Clock(now))
  }

  /** `generateBackendResponse(userMessage)`: refuses without a backend URL,
      and throws on a failed request, a non-ok status or an unreadable body. */
  function BackendResponse(config: AIConfig, fetched: FetchResult, freshId: string, now: int): (r: Result<Message>)
    ensures !Truthy(config.backendUrl) ==> r == Err(BackendNotConfigured)
    ensures Truthy(config.backendUrl) && fetched.Rejected? ==> r == Err(NetworkFailure)
    ensures Truthy(config.backendUrl) && fetched.Responded? && !fetched.ok ==> r == Err(BackendStatus(fetched.statusText))
    ensures r.Ok? <==> Truthy(config.backendUrl) && fetched.Responded? && fetched.ok && fetched.body.Some?
    ensures r.Ok? ==> r.value == MapBackendReply(fetched.body.value, freshId, now)
  {
    if !Truthy(config.backendUrl) then Err(BackendNotConfigured)
    else match fetched
      case Rejected => Err(NetworkFailure)
      case Responded(ok, statusText, body) =>
        if !ok then Err(BackendStatus(statusText))
        else match body
          case None => Err(MalformedJson)
          case Some(data) => Ok(MapBackendReply(data, freshId, now))
  }

  /** `testBackendConnection(url)`: whether the health request got an ok
      response; a rejected request is `false`, never an error. */
  function TestBackendConnection(health: FetchResult): (ok: bool)
    ensures ok <==> health.Responded? && health.ok
  {
    match health
    case Rejected => false
    case Responded(ok, _, _) => ok
  }

  /** The `catch` of `generateResponse`: a failure of a provider other than
      `mock` is answered by the canned matcher; a failure under `mock` is
      rethrown. */
  function Fallback(provider: Provider, attempt: Result<Message>, userMessage: string, id: string, now: int): (r: Result<Message>)
    ensures attempt.Ok? ==> r == attempt
    ensures attempt.Err? && provider != Mock ==> r == Ok(GenerateAIResponse(userMessage, id, now))
    ensures attempt.Err? && provider == Mock ==> r == attempt
    ensures provider != Mock ==> r.Ok?
  {
    if attempt.Err? && provider != Mock then Ok(GenerateAIResponse(userMessage, id, now)) else attempt
  }

  /** The snapshot `getAIStatus()` returns. */
  datatype AIStatus = AIStatus(provider: Provider, status: string, ready: bool)

  /** `getAIStatus()` for a configuration and the local model's status. */
  function StatusFor(config: AIConfig, modelStatus: ModelStatus): (s: AIStatus)
    ensures s.provider == config.provider
    ensures config.provider == Mock ==> s == AIStatus(Mock, "ready", true)
    ensures config.provider == Backend ==>
              (s.ready <==> Truthy(config.backendUrl)) &&
              s.status == (if s.ready then "configured" else "not_configured")
    ensures config.provider == Transformers ==>
              s.status == StatusName(modelStatus) && (s.ready <==> modelStatus == Ready)
  {
    match config.provider
    case Transformers => AIStatus(Transformers, StatusName(modelStatus), modelStatus == Ready)
    case Backend =>
      AIStatus(Backend, if Truthy(config.backendUrl) then "configured" else "not_configured", Truthy(config.backendUrl))
    case Mock => AIStatus(Mock, "ready", true)
  }

  /** The status names are distinct, so `ready` is decided by the name. */
  lemma StatusNameInjective(a: ModelStatus, b: ModelStatus)
    requires StatusName(a) == StatusName(b)
    ensures a == b
  {
  }

  /** A backend the status calls ready is never refused for want of a URL. */
  lemma ReadyBackendIsConfigured(config: AIConfig, modelStatus: ModelStatus, fetched: FetchResult, freshId: string, now: int)
    requires config.provider == Backend && StatusFor(config, modelStatus).ready
    ensures BackendResponse(config, fetched, freshId, now) != Err(BackendNotConfigured)
  {
  }

  /** Under `backend` with no usable URL, every request is answered by the
      canned matcher. */
  lemma UnconfiguredBackendFallsBack(config: AIConfig, fetched: FetchResult, userMessage: string, id: string, now: int)
    requires config.provider == Backend && !Truthy(config.backendUrl)
    ensures Fallback(Backend, BackendResponse(config, fetched, id, now), userMessage, id, now)
              == Ok(GenerateAIResponse(userMessage, id, now))
  {
  }

  /** What the outside world contributes to one call: the id and clock
      reading a new message gets, what the backend's two endpoints yield,
      how the model's pipeline call settles, and the model's text for a
      prompt. */
  datatype World = World(
    id: string,
    now: int,
    generated: FetchResult,
    health: FetchResult,
    load: Result<Handle>,
    generate: (Handle, string) -> Result<string>)

  /** The module state of `aiApi.ts`, with the loader it drives. */
  class Coordinator {
    var config: AIConfig
    const model: LocalModel

    ghost predicate Valid()
      reads this, model
    {
      model.Valid()
    }

    /** The module as loaded: provider `mock`, no model loaded. */
    constructor ()
      ensures Valid() && config == InitialConfig
      ensures model.GetModelStatus() == NotLoaded && fresh(model)
    {
      config := InitialConfig;
      model := new LocalModel();
    }

    /** `setAIConfig(patch)`. */
    method SetAIConfig(patch: ConfigPatch)
      requires Valid()
      modifies this
      ensures Valid()
      ensures config == Merge(old(config), patch)
    {
      config := Merge(config, patch);
    }

    /** `getCurrentProvider()`. */
    function GetCurrentProvider(): (p: Provider)
      reads this
      ensures p == config.provider
    {
      config.provider
    }

    /** `getAIStatus()`. */
    function GetAIStatus(): (s: AIStatus)
      reads this, model
      ensures s == StatusFor(config, model.GetModelStatus())
      ensures s.provider == Transformers ==> (s.ready <==> model.IsModelReady())
    {
      StatusFor(config, model.GetModelStatus())
    }

    /** `initializeAI()`: preloads the model under `transformers`; under
        `backend` with a URL it checks the backend's health and discards the
        answer, returned here as `healthCheck`. Neither can reject. */
    method InitializeAI(world: World) returns (healthCheck: Option<bool>)
      requires Valid()
      modifies model
      ensures Valid() && unchanged(this)
      ensures config.provider == Transformers ==>
                !model.isInitializing &&
                model.textGenerator == HandleAfter(old(model.textGenerator), world.load) &&
                model.loads == old(model.loads) + (if old(model.GetModelStatus()) == NotLoaded then 1 else 0)
      ensures config.provider != Transformers ==> unchanged(model)
      ensures healthCheck.Some? <==> config.provider == Backend && Truthy(config.backendUrl)
      ensures healthCheck.Some? ==> healthCheck.value == TestBackendConnection(world.health)
    {
      healthCheck := None;
      match config.provider {
        case Transformers =>
          model.PreloadModel(world.load);
        case Backend =>
          if Truthy(config.backendUrl) {
            healthCheck := Some(TestBackendConnection(world.health));
          }
        case Mock =>
      }
    }

    /** `generateResponse(userMessage)`: routes on the provider, and falls
        back to the canned matcher when a provider other than `mock` fails. */
    method GenerateResponse(userMessage: string, world: World) returns (r: Result<Message>)
      requires Valid()
      modifies model
      ensures Valid() && unchanged(this)
      ensures config.provider == Mock ==> r == Ok(GenerateAIResponse(userMessage, world.id, world.now)) && unchanged(model)
      ensures config.provider == Backend ==>
                r == Fallback(Backend, BackendResponse(config, world.generated, world.id, world.now), userMessage, world.id, world.now) &&
                unchanged(model)
      ensures config.provider == Transformers ==>
                !model.isInitializing &&
                model.textGenerator == HandleAfter(old(model.textGenerator), world.load) &&
                model.loads == old(model.loads) + (if old(model.textGenerator).None? && !old(model.isInitializing) then 1 else 0) &&
                r == Fallback(Transformers,
                              GenerationResult(InitializeOutcome(old(model.textGenerator), old(model.isInitializing), world.load),
                                               userMessage, world.generate, world.id, world.now),
                              userMessage, world.id, world.now)
      ensures r.Ok? && WellFormedReply(r.value)
    {
      var attempt: Result<Message>;
      match config.provider {
        case Transformers =>
          attempt := model.GenerateCodeWithTransformers(userMessage, world.load, world.generate, world.id, world.now);
        case Backend =>
          attempt := BackendResponse(config, world.generated, world.id, world.now);
        case Mock =>
          attempt := Ok(GenerateAIResponse(userMessage, world.id, world.now));
      }
      r := Fallback(config.provider, attempt, userMessage, world.id, world.now);
    }

    /** `switchProvider(provider)`: sets the provider, keeping the backend
        URL and the API key, then initializes it. */
    method SwitchProvider(provider: Provider, world: World)
      requires Valid()
      modifies this, model
      ensures Valid()
      ensures config == old(config).(provider := provider)
      ensures provider == Transformers ==>
                !model.isInitializing && model.textGenerator == HandleAfter(old(model.textGenerator), world.load) &&
                model.loads == old(model.loads) + (if old(model.textGenerator).None? && !old(model.isInitializing) then 1 else 0)
      ensures provider != Transformers ==> unchanged(model)
    {
      SetAIConfig(ConfigPatch(Some(provider), None, None));
      var _ := InitializeAI(world);
    }
  }
}
