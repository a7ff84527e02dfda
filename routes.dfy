/**
 * The HTTP endpoints of backend/app/api/routes.py: `/health`, `/models` and
 * `/chat`, composed from the rate cache and the chat forwarder.
 *
 * `/chat` is a function of the request and of what the upstream call
 * produced: the body of its `try` block yields a response or an exception,
 * and the `except` clauses turn the exception into the error the client sees.
 */
module Routes {
  import opened Wrappers
  import Currency
  import opened Claude

  /** The application version that `/health` reports. */
  const AppVersion: string := "0.1.0"

  /** The detail of the 500 answer, before the text of the exception. */
  const ErrorPrefix: string := "Erreur lors de la communication avec Claude: "

  datatype HealthCheck = HealthCheck(status: string, version: string)

  /** One entry of the `/models` answer; `current` is always present there. */
  datatype ModelInfo = ModelInfo(
    id: string, name: string, description: string, pricing: Pricing, current: bool)

  datatype ModelsResponse = ModelsResponse(
    models: seq<ModelInfo>, usdToEurRate: real, rateUpdatedAt: Option<int>)

  /** The `/chat` request body; the history and the model id may be missing. */
  datatype ChatRequest = ChatRequest(
    message: string, conversationHistory: Option<seq<Message>>, modelId: Option<string>)

  datatype ChatResponse = ChatResponse(
    response: string, conversationHistory: seq<Message>, tokenUsage: Option<TokenUsage>,
    modelUsed: string)

  /** An error answer: HTTP status and detail text. */
  datatype HttpException = HttpException(status: int, detail: string)

  /** What the `try` block of `chat` can raise. */
  datatype Raised =
    | Http(exception: HttpException)
    | Other(message: string)

  /** `/health`: always "ok", with the application version. */
  function HealthCheckResponse(): (r: HealthCheck)
    ensures r.status == "ok" && r.version == AppVersion
  {
    HealthCheck("ok", AppVersion)
  }

  /** `models` reports `catalog` one entry for one, in order, with a missing `current` reported as true. */
  ghost predicate ReportsCatalog(models: seq<ModelInfo>, catalog: seq<ModelEntry>) {
    |models| == |catalog| &&
    forall i :: 0 <= i < |catalog| ==>
      models[i].id == catalog[i].id &&
      models[i].name == catalog[i].name &&
      models[i].description == catalog[i].description &&
      models[i].pricing == catalog[i].pricing &&
      models[i].current == catalog[i].current.GetOr(true)
  }

  /** The loop of `get_models` that turns each catalog entry into a `ModelInfo`. */
  method ListModels(catalog: seq<ModelEntry>) returns (models: seq<ModelInfo>)
    ensures ReportsCatalog(models, catalog)
  {
    models := [];
    for i := 0 to |catalog|
      invariant ReportsCatalog(models, catalog[..i])
    {
      var entry := catalog[i];
      models := models + [ModelInfo(
        entry.id, entry.name, entry.description, entry.pricing, entry.current.GetOr(true))];
    }
    assert catalog[..|catalog|] == catalog;
  }

  /** A `current` flag left out of the catalog is reported as true, an explicit one as given. */
  lemma MissingCurrentIsTrue(models: seq<ModelInfo>, catalog: seq<ModelEntry>, i: int)
    requires ReportsCatalog(models, catalog)
    requires 0 <= i < |catalog|
    ensures catalog[i].current.None? ==> models[i].current
    ensures catalog[i].current.Some? ==> models[i].current == catalog[i].current.value
  {
  }

  /**
   * `/models`: the rate of an unforced `get_exchange_rate` (which may refresh
   * the cache), the catalog as `ListModels` reports it, and the cache's
   * last-update instant as it stands after the rate was read.
   */
  method GetModels(
    currency: Currency.CurrencyService, claude: ClaudeService, now: int, fetch: Currency.RateFetch)
    returns (r: ModelsResponse)
    modifies currency
    ensures currency.State() == Currency.Refreshed(old(currency.State()), now, false, fetch)
    ensures r.usdToEurRate == currency.usdToEurRate
    ensures r.rateUpdatedAt == currency.lastUpdate
    ensures ReportsCatalog(r.models, claude.availableModels)
  {
    var rate, _ := currency.GetExchangeRate(now, false, fetch);
    var models := ListModels(claude.GetAvailableModels());
    r := ModelsResponse(models, rate, currency.lastUpdate);
  }

  /** The detail of the 400 answer to an unknown model id. */
  function UnknownModelDetail(modelId: string): string {
    "Modèle inconnu: " + modelId + ". Utilisez l'endpoint /models pour voir les modèles disponibles."
  }

  /** The request names a model (non-empty id) that the catalog does not hold. */
  predicate UnknownModel(claude: ClaudeService, request: ChatRequest) {
    Given(request.modelId) && FindModel(claude.availableModels, request.modelId.value).None?
  }

  /** What `send_message` does with the request. */
  function Forwarded(claude: ClaudeService, request: ChatRequest, now: int, upstream: Upstream)
    : Result<ChatResult, ChatFailure>
  {
    Forward(claude.defaultModel, request.message, request.conversationHistory,
            request.modelId, now, upstream)
  }

  /**
   * The `try` block of `chat`: an unknown model id raises the 400 before
   * anything is forwarded; otherwise the forwarder's result is copied into
   * the response, and its failure propagates.
   */
  function ChatBody(claude: ClaudeService, request: ChatRequest, now: int, upstream: Upstream)
    : (r: Result<ChatResponse, Raised>)
    ensures UnknownModel(claude, request) ==>
      r == Failure(Http(HttpException(400, UnknownModelDetail(request.modelId.value))))
    ensures r.Failure? && r.error.Http? ==> UnknownModel(claude, request)
  {
    if Given(request.modelId) && FindModel(claude.availableModels, request.modelId.value).None? then
      Failure(Http(HttpException(400, UnknownModelDetail(request.modelId.value))))
    else
      match Forwarded(claude, request, now, upstream)
      case Success(res) =>
        Success(ChatResponse(res.response, res.history, res.tokenUsage, res.modelUsed))
      case Failure(e) => Failure(Other(e.message))
  }

  /**
   * `/chat`: an HTTP exception raised in the `try` block is re-raised as it
   * is; any other exception becomes a 500 whose detail carries its text.
   */
  function Chat(claude: ClaudeService, request: ChatRequest, now: int, upstream: Upstream)
    : (r: Result<ChatResponse, HttpException>)
    // a 400 exactly for an unknown model id, a 500 exactly when the forwarder fails
    ensures r.Failure? ==> r.error.status == 400 || r.error.status == 500
    ensures (r.Failure? && r.error.status == 400) <==> UnknownModel(claude, request)
    ensures (r.Failure? && r.error.status == 500) <==>
      !UnknownModel(claude, request) && Forwarded(claude, request, now, upstream).Failure?
    ensures r.Failure? && r.error.status == 500 ==>
      r.error.detail == ErrorPrefix + Forwarded(claude, request, now, upstream).error.message
    // on success every field is the forwarder's
    ensures r.Success? ==>
      var res := Forwarded(claude, request, now, upstream).value;
      r.value == ChatResponse(res.response, res.history, res.tokenUsage, res.modelUsed)
  {
    match ChatBody(claude, request, now, upstream)
    case Success(response) => Success(response)
    case Failure(Http(e)) => Failure(e)
    case Failure(Other(message)) => Failure(HttpException(500, ErrorPrefix + message))
  }

  /**
   * An unknown model id is refused before the forwarder runs: the answer is
   * the same 400 whatever the upstream would have produced.
   */
  lemma UnknownModelNeverForwarded(
    claude: ClaudeService, request: ChatRequest, now: int, upstream: Upstream, other: Upstream)
    requires UnknownModel(claude, request)
    ensures Chat(claude, request, now, upstream) == Chat(claude, request, now, other)
    ensures Chat(claude, request, now, upstream)
         == Failure(HttpException(400, UnknownModelDetail(request.modelId.value)))
  {
  }

  /**
   * A successful chat used either the default model (no id, or an empty one)
   * or the requested id, which the catalog then holds; the returned history
   * ends with the user turn and the assistant turn tagged with that model.
   */
  lemma ChatModelUsed(claude: ClaudeService, request: ChatRequest, now: int, upstream: Upstream)
    requires Chat(claude, request, now, upstream).Success?
    ensures var r := Chat(claude, request, now, upstream).value;
      var h := HistoryOrEmpty(request.conversationHistory);
      (if Given(request.modelId)
       then r.modelUsed == request.modelId.value &&
            FindModel(claude.availableModels, r.modelUsed).Some?
       else r.modelUsed == claude.defaultModel) &&
      r.conversationHistory == h + [UserTurn(request.message, now),
                                    AssistantTurn(r.response, r.modelUsed, now)]
  {
  }
}
