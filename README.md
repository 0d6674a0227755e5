# Chat proxy and model availability: a verified model

The repository is a small HTTP façade in front of several large-language-model
providers. Two of its pieces hold the decision logic, and this project models them:

- **`POST /api/ai`** (the chat dispatcher, module `ChatRoute`). It validates `{model, messages}`.
  It looks the model id up in a fixed table, checks the selected adapter's credential,
  and shapes the one outbound request for that provider (DeepSeek, OpenAI, three Gemini
  variants, Nebius, Claude). Then it relays the provider's answer: status kept,
  `Content-Type` kept or defaulted, `Cache-Control: no-store`. The two "lite" Gemini
  variants return a JSON error instead of streaming when the provider answers non-2xx.
- **`POST /api/models`** and **`OPTIONS /api/models`** (the availability reporter, module
  `ModelsRoute`). These list the selectable models. Each configured credential contributes
  its fixed descriptors, in the order DeepSeek, OpenAI, Gemini, Claude, Nebius. The DeepSeek
  pair is the fallback. The preflight answer is fixed.

Supporting modules:
- `Wrappers` holds `Option`.
- `Http` holds header lists, `Response.ok` and the `e.message || 'Internal error'` rule.
- `Env` is the process environment as a map. A credential counts as configured only when it
  is set to a non-empty string, because both handlers test it for truthiness.

The chat handler is a pure function of three inputs:
- the parsed request body, or the message of the parse exception;
- the environment;
- the outcome of the single `fetch`, which is either a status, a body and an optional
  content type, or a failure message.

The decision itself (`Decide`) does not depend on the fetch outcome. So a rejected request
provably involves no outbound call. The source's in-place steps are modelled as methods:
- `proxyDeepSeek` builds a body and then adds `temperature`;
- the models handler makes five conditional pushes and then applies the fallback.

Each method is proved equal to a specification function. The lemmas are stated about those
functions.

The table accepts eight model ids, which reach seven adapters. Only `deepseek-chat` and
`deepseek-reasoner` share an adapter (`AdapterTableInverse`). The models handler never offers
`gemini-2-5-flash-lite`, although the chat handler accepts it. Its fallback pair is offered
precisely when no credential is set, and then the chat handler refuses both of its models with
`DEEPSEEK_API_KEY not set in environment` (`FallbackModelsRefused`).

## Model

| member | source | states |
|---|---|---|
| `Http.HeaderValue` | app/api/ai/route.ts:163-167 | In a header list built from an object literal, the value written under a name is the first entry with that name, and `None` exactly when no entry has it |
| `Http.ErrorMessage` | app/api/ai/route.ts:33-38 | A caught exception's text is its message when that is non-empty, otherwise `Internal error`; never empty |
| `Env.ApiKey` | app/api/ai/route.ts:42-43 | A credential is available exactly when its variable is set and non-empty, and then it is that value |
| `ChatRoute.AdapterFor` | app/api/ai/route.ts:13-31 | An adapter is found exactly for the eight accepted ids; the DeepSeek adapter exactly for `deepseek-chat` and `deepseek-reasoner` |
| `ChatRoute.CredentialOf` | app/api/ai/route.ts:94-100 | Each adapter reads one of the five credential variables; exactly the three Gemini variants read `GEMINI_API_KEY` |
| `ChatRoute.ModelIds` | app/api/ai/route.ts:13-26 | The inverse table only names accepted ids |
| `ChatRoute.AdapterTableInverse` | app/api/ai/route.ts:13-26 | An id selects an adapter exactly when the inverse table lists it there; DeepSeek has two ids and every other adapter one; eight ids in all |
| `ChatRoute.BearerHeaders` | app/api/ai/route.ts:61-64 | The bearer-auth providers send a JSON content type and `Authorization: Bearer <key>` |
| `ChatRoute.DeepSeekBody` | app/api/ai/route.ts:49-57 | The body's model is the requested DeepSeek id; `temperature` 0.7 is present exactly for `deepseek-chat`; messages forwarded unchanged; `stream` is true |
| `ChatRoute.BuildDeepSeekBody` | app/api/ai/route.ts:49-57 | Building the record and then adding `temperature` yields exactly the body above |
| `ChatRoute.DeepSeekRequest` | app/api/ai/route.ts:59-66 | The DeepSeek request goes to the DeepSeek endpoint with bearer auth and the DeepSeek body |
| `ChatRoute.OpenAIRequest` | app/api/ai/route.ts:78-89 | The OpenAI request uses bearer auth, the fixed model `gpt-4o-mini`, streaming, and the messages unchanged |
| `ChatRoute.NebiusRequest` | app/api/ai/route.ts:130-148 | The Nebius request goes to the Nebius endpoint with bearer auth. Its body names the model `deepseek-ai/DeepSeek-V3-0324`, forwards the messages unchanged, and sets `store: false`, `max_tokens` 1024, `n` 1, streaming, temperature and `top_p` 1, and both penalties 0 |
| `ChatRoute.ToGeminiContent` | app/api/ai/route.ts:103-106 | The Gemini role is `user` exactly for a `user` message and `model` otherwise; one part carrying the content |
| `ChatRoute.GeminiContents` | app/api/ai/route.ts:101-106 | The reshaped list is no longer than the input, and every entry is the reshaping of some non-`system` input message |
| `ChatRoute.GeminiContentsAppend` | app/api/ai/route.ts:101-106 | Reshaping distributes over concatenation of conversations |
| `ChatRoute.NonSystemIndicesExact` | app/api/ai/route.ts:101-102 | The filter keeps exactly the non-`system` positions, each once, in increasing order |
| `ChatRoute.GeminiContentsAt` | app/api/ai/route.ts:101-106 | Output entry k is the reshaping of the k-th non-`system` message |
| `ChatRoute.GeminiReshape` | app/api/ai/route.ts:101-106 | One output entry per non-`system` message, none from a `system` message, in the same relative order; role `user` iff the input role is `user`, else `model`; `parts[0].text` is the content |
| `ChatRoute.GeminiEndpoint` | app/api/ai/route.ts:107 | The three Gemini endpoints share the Google host; flash and flash-lite use API version `v1`, and `gemini-2-5-flash-lite` uses `v1beta` |
| `ChatRoute.GeminiConfig` | app/api/ai/route.ts:115 | Flash samples with temperature 1 and topP 1 up to 1024 tokens; both lite variants use temperature 0.7 and topP 0.9 up to 500 tokens |
| `ChatRoute.GeminiRequest` | app/api/ai/route.ts:107-118 | Each Gemini variant sends to its own endpoint with `X-goog-api-key` and no bearer auth. The body carries the reshaped contents, that variant's generation parameters and empty safety settings |
| `ChatRoute.GeminiVariantsDiffer` | app/api/ai/route.ts:192-203 | The three Gemini endpoints are pairwise distinct. All three variants send the same headers and contents. Flash's body differs from the lite bodies, and the two lite bodies are equal |
| `ChatRoute.ClaudeMessages` | app/api/ai/route.ts:160 | The Claude messages keep count and order and copy only role and content |
| `ChatRoute.ClaudeRequest` | app/api/ai/route.ts:160-174 | The Claude request sends the key in `X-API-Key`, `anthropic-version: 2023-06-01` and no bearer auth. Its body names the model `claude-3-7-sonnet-20250219` and sets `max_tokens` 2048 and streaming |
| `ChatRoute.ShapeRequest` | app/api/ai/route.ts:13-26 | Every adapter's request is tagged with that adapter and sends a JSON content type |
| `ChatRoute.Decide` | app/api/ai/route.ts:6-31 | Errors take precedence in this order: missing or empty model or missing messages gives 400 `Missing model or messages`; an id outside the table gives 400 `Unknown model`; an absent credential gives 500 `<KEY> not set in environment`. A request is forwarded exactly when all three checks pass, and then it is the selected adapter's request |
| `ChatRoute.StreamProxy` | app/api/ai/route.ts:251-260 | The streamed answer keeps the upstream status and body; `Content-Type` is the upstream's when truthy, else `application/octet-stream`; `Cache-Control` is `no-store` |
| `ChatRoute.Relay` | app/api/ai/route.ts:205-212 | The upstream status is always kept; a JSON error carrying the upstream text happens exactly for a lite Gemini adapter on a non-2xx status; otherwise the answer is streamed |
| `ChatRoute.Post` | app/api/ai/route.ts:3-39 | A parse failure gives 500 with its message; a rejection is returned as-is; a failed fetch gives 500 with its message; an answered fetch is relayed by the selected adapter's policy |
| `ChatRoute.RejectedRequestsSendNothing` | app/api/ai/route.ts:42-48 | A rejected request gets the same 400/500 JSON answer whatever the upstream would have done |
| `ChatRoute.UpstreamStatusKept` | app/api/ai/route.ts:241-254 | A forwarded request's answer carries the upstream status; a JSON error occurs only for lite Gemini on non-2xx |
| `ChatRoute.DeepSeekDispatch` | app/api/ai/route.ts:13-14 | Both DeepSeek ids are forwarded to DeepSeek with the requested id as model, unchanged messages, streaming, and a temperature only for `deepseek-chat` |
| `ChatRoute.DeepSeekMissingKey` | app/api/ai/route.ts:41-47 | Both DeepSeek ids are refused with 500 `DEEPSEEK_API_KEY not set in environment` when that key is absent |
| `ChatRoute.PassThroughAdapters` | app/api/ai/route.ts:50-53 | DeepSeek, OpenAI and Nebius forward the messages exactly as received, extra fields included |
| `ChatRoute.ClaudeDispatch` | app/api/ai/route.ts:152-174 | A Claude request with a credential is forwarded to the Claude endpoint with the projected messages in order, 2048 tokens, streaming and the version header |
| `ChatRoute.GeminiDispatch` | app/api/ai/route.ts:216-228 | All three Gemini ids are forwarded exactly when `GEMINI_API_KEY` is set, otherwise 500 `GEMINI_API_KEY not set in environment`; the contents are the reshaped messages |
| `ModelsRoute.ProviderEntries` | app/api/models/route.ts:16-40 | DeepSeek and Gemini contribute two entries each; OpenAI, Claude and Nebius contribute one; any other name contributes none. Every entry is enabled |
| `ModelsRoute.AvailableModels` | app/api/models/route.ts:13-48 | The list is never empty. It is the fallback pair exactly when no credential is configured, and otherwise the providers' contributions in order |
| `ModelsRoute.ContributionsLayout` | app/api/models/route.ts:16-40 | The contributed list is five consecutive groups in the order DeepSeek, OpenAI, Gemini, Claude, Nebius; a configured key contributes its fixed entries and an absent key none |
| `ModelsRoute.ListModels` | app/api/models/route.ts:13-48 | The conditional pushes followed by the fallback yield exactly the specified list |
| `ModelsRoute.EntriesMatchDispatcher` | app/api/models/route.ts:18-39 | Every entry a provider contributes is enabled, is accepted by the chat endpoint, is never `gemini-2-5-flash-lite`, and routes to an adapter reading that provider's key |
| `ModelsRoute.ContributionsMembership` | app/api/models/route.ts:16-40 | A descriptor is contributed exactly when some configured key lists it |
| `ModelsRoute.ContributionsNonEmpty` | app/api/models/route.ts:43 | The pushes produce a non-empty list exactly when at least one credential is configured, so the fallback applies exactly when none is |
| `ModelsRoute.NoCredentialFallback` | app/api/models/route.ts:43-48 | With no credential configured the list is exactly `[deepseek-chat "DeepSeek-V3", deepseek-reasoner "DeepSeek-R1"]` |
| `ModelsRoute.AvailableModelsCount` | app/api/models/route.ts:16-40 | With some credential configured the length is 2·[DeepSeek] + [OpenAI] + 2·[Gemini] + [Claude] + [Nebius] |
| `ModelsRoute.AvailableModelsMembership` | app/api/models/route.ts:16-48 | A descriptor is listed exactly when a configured key contributes it, or when it is in the fallback pair and nothing is configured |
| `ModelsRoute.ListedModelsAccepted` | app/api/models/route.ts:18-46 | The list is never empty; every entry is enabled and accepted by the chat endpoint; `gemini-2-5-flash-lite` is never listed |
| `ModelsRoute.ListedModelsDispatch` | app/api/models/route.ts:16-40 | With some credential configured, every listed model passes the chat endpoint's validation, table and credential check |
| `ModelsRoute.FallbackModelsRefused` | app/api/models/route.ts:43-48 | The fallback models are refused by the chat endpoint with 500 `DEEPSEEK_API_KEY not set in environment` |
| `ModelsRoute.DispatchableModelsListed` | app/api/models/route.ts:16-40 | Every accepted id other than `gemini-2-5-flash-lite` whose credential is configured is listed, enabled |
| `ModelsRoute.Preflight` | app/api/models/route.ts:69-77 | `OPTIONS` answers 200 with no body and `Access-Control-Allow-Origin: *`, `-Methods: POST, OPTIONS`, `-Headers: Content-Type` |
| `ModelsRoute.Post` | app/api/models/route.ts:3-65 | Success is 200 with the specified list and a JSON content type plus the preflight's cross-origin headers. A failure is 500 with the error text, the fallback pair and no cross-origin headers. The list is never empty, every entry is enabled, and every entry is accepted by the chat endpoint |

## Left out

- Network I/O is not modelled: the `fetch` calls, `res.text()` and the byte-stream pass-through of `res.body`. The upstream answer is an input value (status, body text, optional content type) or a failure message. The streamed body is that text.
- `request.json()` is not modelled. Its result is an input: either the two fields, or the message of the exception it threw.
- The handlers' JSON-typed inputs are narrowed to strings and lists. JavaScript also accepts a non-string `model`, such as a number, which reaches `Unknown model`. It also accepts a non-array `messages`. DeepSeek, OpenAI and Nebius forward such a value as-is through `JSON.stringify`. The Claude and Gemini adapters call `.map` or `.filter` on it, which throws only after the credential check: with the key set the answer is 500 with the exception's message, and without it the answer is still `<KEY> not set in environment`. Falsy values other than an absent field and the empty string (`0`, `false`) are not modelled.
- `NextResponse` construction is not modelled. This includes the JSON content type it adds to error answers.
- Header names are compared exactly. HTTP's case-insensitive header matching is not modelled.
- The sampling parameters are not numbers in the model. Values such as 0.7, 0.9, 1 and 0 are floating-point literals that the code never computes with, so they are kept as their literal text. The serialisation of bodies to JSON text, and the order of their keys, are not modelled.
- `ModelsRoute.Post`: nothing inside its `try` block can throw in this model. The `fault` parameter stands in for a failure raised by the runtime there, together with its message.
- `async`/`await` and concurrent requests are not modelled. The handlers share no state.
