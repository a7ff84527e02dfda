# my-claude backend core, modelled in Dafny

A model of the logic of the my-claude backend, a thin proxy that forwards
chat messages to the Anthropic messages API and reports the model catalog
with a daily USD -> EUR rate. Three pieces carry that logic:

- **the exchange-rate cache** (`currency.dfy`, module `Currency`):
  `CurrencyService` keeps `usdToEurRate` and `lastUpdate` (instants in whole
  seconds). `GetExchangeRate` refetches when `lastUpdate` is absent (none
  configured and no successful refresh yet), when it is strictly more than
  one day old, or when the refresh is forced. A refresh commits both fields
  together, and only for a status-200 answer whose body holds `rates.EUR`.
  Every failure is swallowed and leaves the cache untouched. The pure function
  `Refreshed` is the reference for the method. `Replay` and `Attempts` follow
  a sequence of calls: while the cached instant is at most one day old,
  unforced calls never contact the rate source. A failed fetch leaves a stale
  cache stale, so it is retried on every later call: the rate is updated, not
  fetched, at most once a day unless forced.
- **the chat forwarder** (`claude.dfy`, module `Claude`): `ClaudeService`
  holds the default model id and the catalog. It looks models up, resolves the
  model of a request, builds the upstream `messages` list, and on a 2xx answer
  extracts the reply and the token usage. It then appends the user turn and
  the assistant turn to the caller's `ConversationHistory` object, in place.
  The pure function `Forward` is the reference for `SendMessage`.
- **the endpoints** (`routes.dfy`, module `Routes`): `/health`, `/models`
  (rate plus catalog listing) and `/chat`. `/chat` rejects an unknown model
  id with 400 before forwarding. It re-raises that 400 unchanged and turns any
  forwarder failure into a 500.

`wrappers.dfy` holds the `Option` and `Result` datatypes.

The network, the clock and the configuration are inputs:

- `RateFetch` is what the request to the rate source produced: an exception,
  or a status with the `rates` object of the JSON body.
- `Upstream` is what the POST to the chat API produced: a transport failure,
  or a status, the text of the error a non-2xx status raises, and the body.
  The body is either not JSON or has optional `content` and `usage`.
- `now` is the current instant, in seconds.
- The constructors take the initial rate, the initial `lastUpdate`, the
  default model id and the catalog. backend/app/config.py does not define
  `CLAUDE_MODELS`, `USD_TO_EUR_RATE` or `LAST_RATE_UPDATE`, although
  currency.py imports the last two and claude.py reads
  `settings.CLAUDE_MODELS`.

Behaviour as the code has it:

- The freshness test is the strict `now - last_update > 1 day`, so a rate
  exactly one day old is still fresh (`OneDayBoundary`).
- The catalog is returned in configuration order. No code sorts it.
- A reply without `content` yields the empty reply `""`. It does not yield an
  error. A `content` that is an empty list raises `IndexError`, which the
  route turns into a 500 with detail `... list index out of range`.
- The forwarder itself does not check the model id against the catalog. It
  uses any non-empty id. Only the `/chat` route validates the id.
- A fetched EUR rate is stored without checking that it is positive.
  `PositiveRateKept` states what does keep the rate positive.
- Every new message is stamped with `now`, and the assistant turn carries the
  `model` that wrote it. backend/app/api/models.py, as it stands, declares
  neither `Message.model` nor `ChatRequest.model_id`, nor the
  `ModelsResponse`/`ModelInfo` schemas that routes.py imports. The model
  follows the code of claude.py and routes.py, which use all of them.
- `ChatResponse` in backend/app/api/models.py:20-23 declares only `response`
  and `conversation_history`, and `ModelPricing`, imported at
  backend/app/api/routes.py:9, is not defined there. With that schema,
  Pydantic would drop the `token_usage` and `model_used` that
  backend/app/api/routes.py:83-84 passes. `Routes.ChatResponse` carries both
  fields, as routes.py builds them.
- The two appended turns are both stamped with the single `now` parameter.
  The code stamps them with two separate `datetime.now()` reads, taken after
  the upstream call has returned (backend/app/api/models.py:13,
  backend/app/services/claude.py:118 and 120). The two instants may differ.

## Model

| member | source | states |
|---|---|---|
| `Currency.CurrencyService.constructor` | backend/app/services/currency.py:16-19 | the cache starts from the configured rate and last-update instant |
| `Currency.FetchedRate` | backend/app/services/currency.py:48-52 | a fetch delivers a rate exactly when the status is 200 and the body has `rates` holding `EUR`, and the rate is that `EUR` value |
| `Currency.Refreshed` | backend/app/services/currency.py:35-64 | the cache changes only when a refresh was due and the fetch delivered a rate; then both fields change together, to the fetched rate stamped `now` |
| `Currency.OneDayBoundary` | backend/app/services/currency.py:35-37 | an entry exactly one day old is fresh; one second older is stale |
| `Currency.FailedFetchKeepsCache` | backend/app/services/currency.py:55-62 | an exception, a non-200 status or a body without `rates.EUR` leaves rate and last update unchanged, even when forced |
| `Currency.RefreshedIsFresh` | backend/app/services/currency.py:35-37 | after a successful refresh at `now`, an unforced call at the same `now` makes no fetch and keeps the cache |
| `Currency.NoFetchWithinADay` | backend/app/services/currency.py:21-64 | a sequence of unforced calls made within one day of the cached last-update instant never contacts the rate source and never changes the cache |
| `Currency.FailedFetchRetried` | backend/app/services/currency.py:35-62 | when a stale cache meets a fetch that delivers no rate, it stays stale, so every later unforced call contacts the rate source again |
| `Currency.PositiveRateKept` | backend/app/services/currency.py:48-53 | the cached rate stays positive across any calls, provided it starts positive and the rate source only delivers positive rates |
| `Currency.CurrencyService.GetExchangeRate` | backend/app/services/currency.py:21-64 | a fetch is attempted exactly when `lastUpdate` is absent, more than a day old, or forced; the new state is `Refreshed` of the old one; the call never fails and returns the rate field as it stands afterwards |
| `Currency.CurrencyService.UsdToEur` | backend/app/services/currency.py:66-77 | the amount times the rate of an unforced `GetExchangeRate`, with the cache updated as that call does |
| `Claude.ClaudeService.constructor` | backend/app/services/claude.py:13-23 | the service keeps the configured default model id and catalog |
| `Claude.ClaudeService.GetAvailableModels` | backend/app/services/claude.py:25-32 | the configured catalog, entry for entry, neither filtered nor reordered |
| `Claude.FirstWithId` | backend/app/services/claude.py:44-47 | the first catalog position whose id equals the key: no earlier entry has it, and the position holds it unless it is the end |
| `Claude.FindModel` | backend/app/services/claude.py:44-47 | lookup by exact id: absent exactly when no entry has the id, otherwise the first entry that has it |
| `Claude.ClaudeService.GetModelInfo` | backend/app/services/claude.py:34-47 | the search loop with early return yields what `FindModel` specifies |
| `Claude.ResolveModel` | backend/app/services/claude.py:70 | the requested id when it is present and non-empty, the configured default otherwise |
| `Claude.Translate` | backend/app/services/claude.py:73-78 | one upstream entry per history message, in order, with that message's role and content |
| `Claude.Outgoing` | backend/app/services/claude.py:73-84 | the `messages` list has one more entry than the history; the entries copy the history in order, and the last entry is the user turn with the new message |
| `Claude.ClaudeService.BuildMessages` | backend/app/services/claude.py:73-84 | the append loop builds exactly the `Outgoing` list |
| `Claude.ExtractReply` | backend/app/services/claude.py:107 | the reply is the first content element's `text`, or `""` when `content` is missing or that element has no `text`; it fails with `IndexError` exactly when `content` is an empty list |
| `Claude.ExtractUsage` | backend/app/services/claude.py:109-115 | token usage is absent exactly when `usage` is; a missing count is 0 |
| `Claude.Forward` | backend/app/services/claude.py:66-131 | succeeds exactly on a 2xx JSON answer whose `content` is not an empty list; a transport error or a non-2xx status is the failure; on success the model is the resolved one, reply and usage are the extracted ones, and the history is the old one plus the user turn and then the assistant turn tagged with the model |
| `Claude.ForwardMissingHistoryIsEmpty` | backend/app/services/claude.py:66-67 | a missing history behaves exactly as the empty history |
| `Claude.ConversationHistory.constructor` | backend/app/api/models.py:18 | the caller's history list starts with the messages it was given |
| `Claude.ClaudeService.SendMessage` | backend/app/services/claude.py:49-131 | the payload carries the resolved model, the `Outgoing` list and `max_tokens` 1024; the result is `Forward`'s; the caller's history grows by the two turns only on success and is untouched on failure |
| `Routes.HealthCheckResponse` | backend/app/api/routes.py:13-19 | status "ok" with the configured version "0.1.0" |
| `Routes.ListModels` | backend/app/api/routes.py:32-43 | exactly one entry per catalog entry, in order, with id, name, description and pricing copied, and `current` defaulting to true |
| `Routes.MissingCurrentIsTrue` | backend/app/api/routes.py:42 | an entry without `current` is reported current; an explicit flag is reported as given |
| `Routes.GetModels` | backend/app/api/routes.py:21-49 | the rate of an unforced refresh, the catalog as `ListModels` reports it, and the last-update instant as read after the refresh |
| `Routes.ChatBody` | backend/app/api/routes.py:62-85 | an unknown non-empty model id raises the 400 with its detail; that is the only HTTP exception the block raises |
| `Routes.Chat` | backend/app/api/routes.py:51-91 | the answer is 400 exactly for an unknown model id and 500 exactly when the forwarder fails, with the detail prefixed; on success every field comes from the forwarder's result |
| `Routes.UnknownModelNeverForwarded` | backend/app/api/routes.py:64-71 | for an unknown model id, the answer is the same 400 whatever the upstream would have answered: nothing is forwarded |
| `Routes.ChatModelUsed` | backend/app/api/routes.py:64-85 | a successful chat used the requested id, which the catalog holds, or the default when no id was given; the returned history ends with the user turn and the assistant turn tagged with that model |

## Left out

- The HTTP requests to the rate source and to the chat API, with their URLs, headers, API key and timeouts (5 s and 30 s). They are network I/O and appear only as the `RateFetch` and `Upstream` inputs.
- The texts of the exceptions (`str(e)`). They come from httpx and the JSON parser, so they are carried in the inputs rather than derived. The one exception the model raises itself is the empty-list `IndexError`, whose text is a constant.
- `datetime.now()`. It is the `now` parameter, in whole seconds, so sub-second differences around the one-day boundary are not represented.
- `Claude.Forward`: the user turn and the assistant turn share one timestamp `now`; the two separate clock reads of the code, which may give the assistant turn a later instant than the user turn, are not represented.
- `Routes.Chat`: the response keeps `token_usage` and `model_used`, following routes.py; the `ChatResponse` schema as declared in models.py, which would drop them, is not modelled.
- Logging. It has no effect on behaviour.
- `async` and concurrent requests: two refreshes racing on the shared cache are not modelled; calls are sequential.
- A first `content` element whose `text` is `null`. backend/app/services/claude.py:107 then yields `None`, and building the assistant `Message` at line 120 fails validation after line 118 has already appended the user turn. The caller's history then grows by one entry although the call fails. This is the only case where the history is not changed all-or-nothing, and the model does not represent it: `ContentBlock.text` is a string or absent.
- Other shapes of upstream or rate bodies that the code does not expect, such as a `content` element that is not an object, a `usage` that is `null`, or a non-numeric `EUR`. These raise `AttributeError` or are stored as given. A catalog entry missing `pricing` or `name`, which would raise `KeyError` in `/models`, is also not modelled.
- Pydantic validation of request and response bodies, FastAPI routing and CORS, server start-up, and environment loading of the configuration.
- The frontend, including `calculateCost`, which is floating-point formatting.
- `Claude.ClaudeService.GetAvailableModels`: it returns the catalog as a value, not the same list object, so aliasing of the configuration list is not captured.
- `Claude.ClaudeService.SendMessage`: when the caller gives no history, the list Python creates is not an object of the model. Its contents are the result's `history`.
- `Currency.CurrencyService.UsdToEur`: it multiplies exactly over the reals, without floating-point rounding. `Currency.CurrencyService.GetExchangeRate` likewise treats the rate as a real.
