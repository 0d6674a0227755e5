/**
 * The chat proxy endpoint, `POST /api/ai` (app/api/ai/route.ts).
 *
 * The handler validates the request, picks one provider adapter from a fixed
 * table of model ids, checks that adapter's credential, shapes the outbound
 * request for that provider and relays the provider's response. Everything
 * the handler waits on is a parameter here: the parsed request body (or the
 * reason it could not be parsed), the environment, and the outcome of the
 * single outbound `fetch`.
 */
module ChatRoute {
  import opened Wrappers
  import opened Http
  import Env

  // ---------------------------------------------------------------------
  // Requests
  // ---------------------------------------------------------------------

  /**
   * One message of the conversation. `extra` holds any further JSON fields
   * the caller sent with it (as opaque serialised values): adapters that
   * forward `messages` as given send them on, the Claude adapter drops them.
   */
  datatype ChatMessage = ChatMessage(role: string, content: string, extra: map<string, string>)

  /** The two fields the handler reads from the JSON body; an absent or null field is `None`. */
  datatype ChatRequest = ChatRequest(model: Option<string>, messages: Option<seq<ChatMessage>>)

  /** What `await request.json()` produced: a body, or the message of the exception it threw. */
  datatype Incoming = Parsed(request: ChatRequest) | Unparsable(message: string)

  const MissingInput: string := "Missing model or messages"
  const UnknownModel: string := "Unknown model"
  const NotSetSuffix: string := " not set in environment"

  /** `!model || !messages` is false: a non-empty model id and a message list (possibly empty). */
  predicate HasModelAndMessages(req: ChatRequest) {
    req.model.Some? && req.model.value != "" && req.messages.Some?
  }

  // ---------------------------------------------------------------------
  // The dispatch table
  // ---------------------------------------------------------------------

  /** One variant per `proxy*` function of the source. */
  datatype Adapter =
    | DeepSeek | OpenAI | GeminiFlash | Nebius | Claude | GeminiFlashLite | Gemini25FlashLite

  const DeepSeekChat: string := "deepseek-chat"
  const DeepSeekReasoner: string := "deepseek-reasoner"
  const Gpt4oMini: string := "gpt-4o-mini"
  const GeminiFlashId: string := "gemini-flash"
  const NebiusStudio: string := "nebius-studio"
  const ClaudeId: string := "claude"
  const GeminiFlashLiteId: string := "gemini-flash-lite"
  const Gemini25FlashLiteId: string := "gemini-2-5-flash-lite"

  /** Every model id the dispatcher accepts, whatever the environment holds. */
  const AcceptedIds: set<string> := {
    DeepSeekChat, DeepSeekReasoner, Gpt4oMini, GeminiFlashId,
    NebiusStudio, ClaudeId, GeminiFlashLiteId, Gemini25FlashLiteId
  }

  /** The if/else chain on `model`. */
  function AdapterFor(model: string): (r: Option<Adapter>)
    ensures r.Some? <==> model in AcceptedIds
    ensures r == Some(DeepSeek) <==> model == DeepSeekChat || model == DeepSeekReasoner
  {
    if model == DeepSeekChat || model == DeepSeekReasoner then Some(DeepSeek)
    else if model == Gpt4oMini then Some(OpenAI)
    else if model == GeminiFlashId then Some(GeminiFlash)
    else if model == NebiusStudio then Some(Nebius)
    else if model == ClaudeId then Some(Claude)
    else if model == GeminiFlashLiteId then Some(GeminiFlashLite)
    else if model == Gemini25FlashLiteId then Some(Gemini25FlashLite)
    else None
  }

  /** The environment variable each adapter reads before doing anything else. */
  function CredentialOf(a: Adapter): (name: string)
    ensures a.GeminiFlash? || a.GeminiFlashLite? || a.Gemini25FlashLite? <==> name == Env.GeminiKey
    ensures name in {Env.DeepSeekKey, Env.OpenAIKey, Env.GeminiKey, Env.ClaudeKey, Env.NebiusKey}
  {
    match a
    case DeepSeek => Env.DeepSeekKey
    case OpenAI => Env.OpenAIKey
    case GeminiFlash => Env.GeminiKey
    case Nebius => Env.NebiusKey
    case Claude => Env.ClaudeKey
    case GeminiFlashLite => Env.GeminiKey
    case Gemini25FlashLite => Env.GeminiKey
  }

  /** The table read backwards: the model ids that select each adapter. */
  function ModelIds(a: Adapter): (ids: set<string>)
    ensures ids <= AcceptedIds
  {
    match a
    case DeepSeek => {DeepSeekChat, DeepSeekReasoner}
    case OpenAI => {Gpt4oMini}
    case GeminiFlash => {GeminiFlashId}
    case Nebius => {NebiusStudio}
    case Claude => {ClaudeId}
    case GeminiFlashLite => {GeminiFlashLiteId}
    case Gemini25FlashLite => {Gemini25FlashLiteId}
  }

  /**
   * Eight ids reach seven adapters: every adapter is reachable, and only the
   * DeepSeek adapter is reached by more than one id.
   */
  lemma AdapterTableInverse(model: string, a: Adapter)
    ensures AdapterFor(model) == Some(a) <==> model in ModelIds(a)
    ensures |ModelIds(a)| == if a.DeepSeek? then 2 else 1
    ensures |AcceptedIds| == 8
  {
  }

  // ---------------------------------------------------------------------
  // Outbound requests
  // ---------------------------------------------------------------------

  /** One `contents` entry of a Gemini request: `{role, parts: [{text}]}`. */
  datatype Part = Part(text: string)
  datatype GeminiContent = GeminiContent(role: string, parts: seq<Part>)

  /** One Claude message: the `{role, content}` projection of a chat message. */
  datatype ClaudeMessage = ClaudeMessage(role: string, content: string)

  /**
   * Sampling parameters are floating-point literals the handler never computes
   * on; they are kept as their literal text. Token limits are integers.
   */
  datatype GenerationConfig = GenerationConfig(temperature: string, topP: string, maxOutputTokens: nat)

  datatype DeepSeekPayload = DeepSeekPayload(
    model: string, messages: seq<ChatMessage>, stream: bool, temperature: Option<string>)
  datatype OpenAIPayload = OpenAIPayload(model: string, messages: seq<ChatMessage>, stream: bool)
  /** `safetySettings` is always the empty list. */
  datatype GeminiPayload = GeminiPayload(
    contents: seq<GeminiContent>, generationConfig: GenerationConfig, safetySettings: seq<string>)
  datatype NebiusPayload = NebiusPayload(
    model: string, store: bool, messages: seq<ChatMessage>, maxTokens: nat, temperature: string,
    topP: string, n: nat, stream: bool, presencePenalty: string, frequencyPenalty: string)
  datatype ClaudePayload = ClaudePayload(
    model: string, messages: seq<ClaudeMessage>, maxTokens: nat, stream: bool)

  /** The JSON body of the outbound request, before serialisation. */
  datatype RequestBody =
    | DeepSeekJson(deepSeek: DeepSeekPayload)
    | OpenAIJson(openAI: OpenAIPayload)
    | GeminiJson(gemini: GeminiPayload)
    | NebiusJson(nebius: NebiusPayload)
    | ClaudeJson(claude: ClaudePayload)

  /** The single outbound `POST` an adapter issues. */
  datatype Outbound = Outbound(adapter: Adapter, url: string, headers: seq<Header>, body: RequestBody)

  const DeepSeekUrl: string := "https://api.deepseek.com/chat/completions"
  const OpenAIUrl: string := "https://api.openai.com/v1/chat/completions"
  const GeminiHost: string := "https://generativelanguage.googleapis.com/"
  const GeminiFlashUrl: string := GeminiHost + "v1/models/gemini-2.0-flash:generateContent?alt=sse"
  const GeminiFlashLiteUrl: string := GeminiHost + "v1/models/gemini-2.0-flash-lite:generateContent?alt=sse"
  const Gemini25FlashLiteUrl: string :=
    GeminiHost + "v1beta/models/gemini-2-5-flash-lite:generateContent?alt=sse"
  const NebiusUrl: string := "https://api.studio.nebius.com/v1/chat/completions"
  const ClaudeUrl: string := "https://api.anthropic.com/v1/messages"

  const AnthropicVersion: string := "2023-06-01"
  const DeepSeekChatTemperature: string := "0.7"

  /** `Content-Type: application/json` plus `Authorization: Bearer <key>`. */
  function BearerHeaders(key: string): (hs: seq<Header>)
    ensures HeaderValue(hs, "Content-Type") == Some("application/json")
    ensures HeaderValue(hs, "Authorization") == Some("Bearer " + key)
  {
    [JsonContentType, Header("Authorization", "Bearer " + key)]
  }

  /**
   * `proxyDeepSeek`'s body: the sub-model is `deepseek-reasoner` when asked for
   * and `deepseek-chat` otherwise, and only `deepseek-chat` gets a temperature.
   */
  function DeepSeekBody(messages: seq<ChatMessage>, model: string): (p: DeepSeekPayload)
    ensures model == DeepSeekChat || model == DeepSeekReasoner ==> p.model == model
    ensures p.model == DeepSeekChat || p.model == DeepSeekReasoner
    ensures p.temperature.Some? <==> p.model == DeepSeekChat
    ensures p.temperature.Some? ==> p.temperature.value == DeepSeekChatTemperature
    ensures p.messages == messages && p.stream
  {
    var deepseekModel := if model == DeepSeekReasoner then DeepSeekReasoner else DeepSeekChat;
    DeepSeekPayload(deepseekModel, messages, true,
                    if deepseekModel == DeepSeekChat then Some(DeepSeekChatTemperature) else None)
  }

  /** The same body built as the source builds it: a record that then gains a field. */
  method BuildDeepSeekBody(messages: seq<ChatMessage>, model: string) returns (body: DeepSeekPayload)
    ensures body == DeepSeekBody(messages, model)
  {
    var deepseekModel := if model == DeepSeekReasoner then DeepSeekReasoner else DeepSeekChat;
    body := DeepSeekPayload(deepseekModel, messages, true, None);
    if deepseekModel == DeepSeekChat {
      body := body.(temperature := Some(DeepSeekChatTemperature));
    }
  }

  function DeepSeekRequest(messages: seq<ChatMessage>, model: string, key: string): (o: Outbound)
    ensures o.adapter == DeepSeek && o.url == DeepSeekUrl
    ensures HeaderValue(o.headers, "Authorization") == Some("Bearer " + key)
    ensures o.body == DeepSeekJson(DeepSeekBody(messages, model))
  {
    Outbound(DeepSeek, DeepSeekUrl, BearerHeaders(key), DeepSeekJson(DeepSeekBody(messages, model)))
  }

  function OpenAIRequest(messages: seq<ChatMessage>, key: string): (o: Outbound)
    ensures o.adapter == OpenAI && o.url == OpenAIUrl
    ensures HeaderValue(o.headers, "Authorization") == Some("Bearer " + key)
    ensures o.body.OpenAIJson? && o.body.openAI.messages == messages
    ensures o.body.openAI.model == Gpt4oMini && o.body.openAI.stream
  {
    Outbound(OpenAI, OpenAIUrl, BearerHeaders(key), OpenAIJson(OpenAIPayload(Gpt4oMini, messages, true)))
  }

  const NebiusModel: string := "deepseek-ai/DeepSeek-V3-0324"
  const ClaudeModel: string := "claude-3-7-sonnet-20250219"

  function NebiusRequest(messages: seq<ChatMessage>, key: string): (o: Outbound)
    ensures o.adapter == Nebius && o.url == NebiusUrl
    ensures HeaderValue(o.headers, "Authorization") == Some("Bearer " + key)
    ensures o.body.NebiusJson? && o.body.nebius.messages == messages
    ensures o.body.nebius.stream && !o.body.nebius.store
    ensures o.body.nebius.model == NebiusModel && o.body.nebius.maxTokens == 1024 && o.body.nebius.n == 1
    ensures o.body.nebius.temperature == "1" && o.body.nebius.topP == "1"
    ensures o.body.nebius.presencePenalty == "0" && o.body.nebius.frequencyPenalty == "0"
  {
    Outbound(Nebius, NebiusUrl, BearerHeaders(key),
             NebiusJson(NebiusPayload(NebiusModel, false, messages, 1024, "1", "1", 1,
                                      true, "0", "0")))
  }

  /** Gemini's role for a chat message: `user` stays `user`, every other role becomes `model`. */
  function ToGeminiContent(m: ChatMessage): (c: GeminiContent)
    ensures c.role == "user" || c.role == "model"
    ensures c.role == "user" <==> m.role == "user"
    ensures c.parts == [Part(m.content)]
  {
    GeminiContent(if m.role == "user" then "user" else "model", [Part(m.content)])
  }

  /** `messages.filter(m => m.role !== 'system').map(...)` */
  function GeminiContents(ms: seq<ChatMessage>): (cs: seq<GeminiContent>)
    ensures |cs| <= |ms|
    ensures forall c :: c in cs ==> exists m :: m in ms && m.role != "system" && c == ToGeminiContent(m)
    decreases |ms|
  {
    if ms == [] then []
    else
      var rest := GeminiContents(ms[1..]);
      assert forall m :: m in ms[1..] ==> m in ms;
      (if ms[0].role == "system" then [] else [ToGeminiContent(ms[0])]) + rest
  }

  /** Positions of the non-`system` messages of `ms`, in increasing order. */
  ghost function NonSystemIndices(ms: seq<ChatMessage>): (idx: seq<int>)
    decreases |ms|
  {
    if ms == [] then []
    else
      var n := |ms| - 1;
      NonSystemIndices(ms[..n]) + (if ms[n].role == "system" then [] else [n])
  }

  /** Reshaping a conversation piecewise gives the same contents as reshaping it whole. */
  lemma {:induction false} GeminiContentsAppend(a: seq<ChatMessage>, b: seq<ChatMessage>)
    ensures GeminiContents(a + b) == GeminiContents(a) + GeminiContents(b)
    decreases |a|
  {
    if a == [] {
      assert a + b == b;
    } else {
      assert (a + b)[1..] == a[1..] + b;
      GeminiContentsAppend(a[1..], b);
    }
  }

  /** Reshaping a conversation with one more message at the end. */
  lemma GeminiContentsSnoc(p: seq<ChatMessage>, m: ChatMessage)
    ensures GeminiContents(p + [m]) ==
            GeminiContents(p) + (if m.role == "system" then [] else [ToGeminiContent(m)])
  {
    GeminiContentsAppend(p, [m]);
    assert [m][1..] == [];
  }

  /** `NonSystemIndices` lists exactly the non-`system` positions, each once, in order. */
  lemma {:induction false} NonSystemIndicesExact(ms: seq<ChatMessage>)
    ensures forall k :: 0 <= k < |NonSystemIndices(ms)| ==>
              0 <= NonSystemIndices(ms)[k] < |ms| && ms[NonSystemIndices(ms)[k]].role != "system"
    ensures forall k, l :: 0 <= k < l < |NonSystemIndices(ms)| ==> NonSystemIndices(ms)[k] < NonSystemIndices(ms)[l]
    ensures forall j :: 0 <= j < |ms| && ms[j].role != "system" ==> j in NonSystemIndices(ms)
    decreases |ms|
  {
    if ms != [] {
      var n := |ms| - 1;
      var p := ms[..n];
      NonSystemIndicesExact(p);
      var ip, tail := NonSystemIndices(p), if ms[n].role == "system" then [] else [n];
      var idx := NonSystemIndices(ms);
      assert idx == ip + tail;
      forall k | 0 <= k < |idx|
        ensures 0 <= idx[k] < |ms| && ms[idx[k]].role != "system"
      {
        if k < |ip| {
          assert p[ip[k]] == ms[ip[k]];
        }
      }
      forall j | 0 <= j < |ms| && ms[j].role != "system"
        ensures j in idx
      {
        if j < n {
          assert p[j] == ms[j];
        } else {
          assert idx[|ip|] == j;
        }
      }
    }
  }

  /** Entry `k` of the Gemini contents is the reshaped `k`-th non-`system` message. */
  lemma {:induction false} GeminiContentsAt(ms: seq<ChatMessage>)
    ensures |GeminiContents(ms)| == |NonSystemIndices(ms)|
    ensures forall k :: 0 <= k < |NonSystemIndices(ms)| ==>
              0 <= NonSystemIndices(ms)[k] < |ms| &&
              GeminiContents(ms)[k] == ToGeminiContent(ms[NonSystemIndices(ms)[k]])
    decreases |ms|
  {
    if ms != [] {
      var n := |ms| - 1;
      var p := ms[..n];
      GeminiContentsAt(p);
      assert ms == p + [ms[n]];
      GeminiContentsSnoc(p, ms[n]);
      var ip, tail := NonSystemIndices(p), if ms[n].role == "system" then [] else [n];
      var cp, last := GeminiContents(p), if ms[n].role == "system" then [] else [ToGeminiContent(ms[n])];
      var idx, cs := NonSystemIndices(ms), GeminiContents(ms);
      assert idx == ip + tail;
      assert cs == cp + last;
      forall k | 0 <= k < |idx|
        ensures 0 <= idx[k] < |ms| && cs[k] == ToGeminiContent(ms[idx[k]])
      {
        if k < |ip| {
          assert p[ip[k]] == ms[ip[k]];
        }
      }
    }
  }

  /**
   * The Gemini reshaping as a whole: the output has one entry per non-`system`
   * message, in the same relative order; no entry comes from a `system`
   * message; the role is `user` exactly for `user` messages and `model`
   * otherwise; the single part carries the message content.
   */
  lemma GeminiReshape(ms: seq<ChatMessage>)
    ensures var cs, idx := GeminiContents(ms), NonSystemIndices(ms);
      && |cs| == |idx|
      && (forall j :: 0 <= j < |ms| ==> (j in idx <==> ms[j].role != "system"))
      && (forall k, l :: 0 <= k < l < |idx| ==> idx[k] < idx[l])
      && (forall k :: 0 <= k < |cs| ==>
            && 0 <= idx[k] < |ms|
            && ms[idx[k]].role != "system"
            && (cs[k].role == "user" <==> ms[idx[k]].role == "user")
            && (cs[k].role != "user" ==> cs[k].role == "model")
            && |cs[k].parts| == 1 && cs[k].parts[0].text == ms[idx[k]].content)
  {
    NonSystemIndicesExact(ms);
    GeminiContentsAt(ms);
  }

  /**
   * The endpoint of each Gemini variant: all three on the same host, the two
   * 2.0 models under API version `v1` and the 2.5 model under `v1beta`.
   */
  function GeminiEndpoint(a: Adapter): (url: string)
    requires a.GeminiFlash? || a.GeminiFlashLite? || a.Gemini25FlashLite?
    ensures |GeminiHost| <= |url| && url[..|GeminiHost|] == GeminiHost
    ensures a.GeminiFlash? ==> url == GeminiFlashUrl
    ensures a.GeminiFlashLite? ==> url == GeminiFlashLiteUrl
    ensures a.Gemini25FlashLite? ==> url == Gemini25FlashLiteUrl
  {
    match a
    case GeminiFlash => GeminiFlashUrl
    case GeminiFlashLite => GeminiFlashLiteUrl
    case Gemini25FlashLite => Gemini25FlashLiteUrl
  }

  /**
   * The generation parameters of each Gemini variant: flash samples with
   * temperature 1 and topP 1 up to 1024 tokens, and both lite variants share
   * temperature 0.7 and topP 0.9 up to 500 tokens.
   */
  function GeminiConfig(a: Adapter): (g: GenerationConfig)
    requires a.GeminiFlash? || a.GeminiFlashLite? || a.Gemini25FlashLite?
    ensures a.GeminiFlash? ==> g.temperature == "1" && g.topP == "1" && g.maxOutputTokens == 1024
    ensures !a.GeminiFlash? ==> g.temperature == "0.7" && g.topP == "0.9" && g.maxOutputTokens == 500
  {
    if a.GeminiFlash? then GenerationConfig("1", "1", 1024) else GenerationConfig("0.7", "0.9", 500)
  }

  function GeminiRequest(a: Adapter, messages: seq<ChatMessage>, key: string): (o: Outbound)
    requires a.GeminiFlash? || a.GeminiFlashLite? || a.Gemini25FlashLite?
    ensures o.adapter == a && o.url == GeminiEndpoint(a)
    ensures HeaderValue(o.headers, "X-goog-api-key") == Some(key)
    ensures HeaderValue(o.headers, "Authorization") == None
    ensures o.body.GeminiJson? && o.body.gemini.contents == GeminiContents(messages)
    ensures o.body.gemini.generationConfig == GeminiConfig(a)
    ensures o.body.gemini.generationConfig.maxOutputTokens == (if a.GeminiFlash? then 1024 else 500)
    ensures o.body.gemini.safetySettings == []
  {
    Outbound(a, GeminiEndpoint(a), [JsonContentType, Header("X-goog-api-key", key)],
             GeminiJson(GeminiPayload(GeminiContents(messages), GeminiConfig(a), [])))
  }

  /**
   * The three Gemini adapters send the same contents and headers, and differ
   * only in where they send them and, for flash against the lite variants, in
   * the generation parameters.
   */
  lemma GeminiVariantsDiffer(messages: seq<ChatMessage>, key: string)
    ensures GeminiRequest(GeminiFlash, messages, key).url != GeminiRequest(GeminiFlashLite, messages, key).url
    ensures GeminiRequest(GeminiFlash, messages, key).url != GeminiRequest(Gemini25FlashLite, messages, key).url
    ensures GeminiRequest(GeminiFlashLite, messages, key).url != GeminiRequest(Gemini25FlashLite, messages, key).url
    ensures GeminiRequest(GeminiFlash, messages, key).body != GeminiRequest(GeminiFlashLite, messages, key).body
    ensures GeminiRequest(GeminiFlashLite, messages, key).body == GeminiRequest(Gemini25FlashLite, messages, key).body
    ensures GeminiRequest(GeminiFlash, messages, key).headers == GeminiRequest(GeminiFlashLite, messages, key).headers
    ensures GeminiRequest(GeminiFlash, messages, key).headers == GeminiRequest(Gemini25FlashLite, messages, key).headers
    ensures GeminiRequest(GeminiFlash, messages, key).body.gemini.contents ==
            GeminiRequest(GeminiFlashLite, messages, key).body.gemini.contents
  {
  }

  /** `messages.map(m => ({ role: m.role, content: m.content }))` */
  function ClaudeMessages(ms: seq<ChatMessage>): (r: seq<ClaudeMessage>)
    ensures |r| == |ms|
    ensures forall i :: 0 <= i < |ms| ==> r[i].role == ms[i].role && r[i].content == ms[i].content
    decreases |ms|
  {
    if ms == [] then [] else [ClaudeMessage(ms[0].role, ms[0].content)] + ClaudeMessages(ms[1..])
  }

  function ClaudeRequest(messages: seq<ChatMessage>, key: string): (o: Outbound)
    ensures o.adapter == Claude && o.url == ClaudeUrl
    ensures HeaderValue(o.headers, "X-API-Key") == Some(key)
    ensures HeaderValue(o.headers, "anthropic-version") == Some(AnthropicVersion)
    ensures HeaderValue(o.headers, "Authorization") == None
    ensures o.body.ClaudeJson? && o.body.claude.messages == ClaudeMessages(messages)
    ensures o.body.claude.maxTokens == 2048 && o.body.claude.stream
    ensures o.body.claude.model == ClaudeModel
  {
    var headers := [JsonContentType, Header("X-API-Key", key), Header("anthropic-version", AnthropicVersion)];
    assert headers[1..][1..] == [headers[2]];
    Outbound(Claude, ClaudeUrl, headers,
             ClaudeJson(ClaudePayload(ClaudeModel, ClaudeMessages(messages), 2048, true)))
  }

  /** The outbound request of adapter `a`, once its credential `key` is known. */
  function ShapeRequest(a: Adapter, model: string, messages: seq<ChatMessage>, key: string): (o: Outbound)
    ensures o.adapter == a
    ensures HeaderValue(o.headers, "Content-Type") == Some("application/json")
  {
    match a
    case DeepSeek => DeepSeekRequest(messages, model, key)
    case OpenAI => OpenAIRequest(messages, key)
    case GeminiFlash => GeminiRequest(a, messages, key)
    case Nebius => NebiusRequest(messages, key)
    case Claude => ClaudeRequest(messages, key)
    case GeminiFlashLite => GeminiRequest(a, messages, key)
    case Gemini25FlashLite => GeminiRequest(a, messages, key)
  }

  // ---------------------------------------------------------------------
  // The dispatch decision
  // ---------------------------------------------------------------------

  /** Either a JSON error the handler returns at once, or the one request it sends. */
  datatype Decision = Reject(status: int, error: string) | Forward(request: Outbound)

  /**
   * Validation, then the table, then the adapter's credential check: the first
   * of these to fail decides the answer, and only a request that passes all
   * three is sent anywhere.
   */
  function Decide(req: ChatRequest, env: Env.Environment): (d: Decision)
    ensures !HasModelAndMessages(req) ==> d == Reject(400, MissingInput)
    ensures HasModelAndMessages(req) && req.model.value !in AcceptedIds ==> d == Reject(400, UnknownModel)
    ensures HasModelAndMessages(req) && req.model.value in AcceptedIds ==>
              var a := AdapterFor(req.model.value).value;
              && (d.Forward? <==> Env.Present(env, CredentialOf(a)))
              && (d.Reject? ==> d == Reject(500, CredentialOf(a) + NotSetSuffix))
              && (d.Forward? ==> d.request == ShapeRequest(a, req.model.value, req.messages.value,
                                                           env[CredentialOf(a)]))
    ensures d.Forward? ==> d.request.adapter == AdapterFor(req.model.value).value
  {
    if !HasModelAndMessages(req) then Reject(400, MissingInput)
    else
      var model := req.model.value;
      match AdapterFor(model)
      case None => Reject(400, UnknownModel)
      case Some(a) =>
        match Env.ApiKey(env, CredentialOf(a))
        case None => Reject(500, CredentialOf(a) + NotSetSuffix)
        case Some(key) => Forward(ShapeRequest(a, model, req.messages.value, key))
  }

  // ---------------------------------------------------------------------
  // Relaying the upstream response
  // ---------------------------------------------------------------------

  /** What the provider answered: status, body (read as text or streamed), `Content-Type` if any. */
  datatype Upstream = Upstream(status: int, body: string, contentType: Option<string>)

  /** The outcome of the `fetch`: a response, or the message of the exception it threw. */
  datatype FetchOutcome = Responded(response: Upstream) | FetchFailed(message: string)

  /** A JSON `{error}` answer, or the upstream body streamed through with the given headers. */
  datatype Response =
    | JsonError(status: int, error: string)
    | Stream(status: int, contentType: string, cacheControl: string, body: string)

  const OctetStream: string := "application/octet-stream"
  const NoStore: string := "no-store"

  /** `streamProxy`: keep status and body, keep a truthy `Content-Type`, never cache. */
  function StreamProxy(res: Upstream): (r: Response)
    ensures r.Stream? && r.status == res.status && r.body == res.body
    ensures r.contentType == if res.contentType.Some? && res.contentType.value != ""
                             then res.contentType.value else OctetStream
    ensures r.cacheControl == NoStore
  {
    var ct := match res.contentType
      case Some(t) => if t != "" then t else OctetStream
      case None => OctetStream;
    Stream(res.status, ct, NoStore, res.body)
  }

  /** Only the two lite Gemini adapters look at `res.ok` before streaming. */
  predicate ChecksUpstreamStatus(a: Adapter) {
    a.GeminiFlashLite? || a.Gemini25FlashLite?
  }

  function Relay(a: Adapter, res: Upstream): (r: Response)
    ensures r.status == res.status
    ensures r.JsonError? <==> ChecksUpstreamStatus(a) && !IsOk(res.status)
    ensures r.JsonError? ==> r.error == res.body
    ensures r.Stream? ==> r == StreamProxy(res)
  {
    if ChecksUpstreamStatus(a) && !IsOk(res.status) then JsonError(res.status, res.body)
    else StreamProxy(res)
  }

  /** The whole `POST` handler, `try`/`catch` included. */
  function Post(incoming: Incoming, env: Env.Environment, fetch: FetchOutcome): (r: Response)
    ensures incoming.Unparsable? ==> r == JsonError(500, ErrorMessage(incoming.message))
    ensures incoming.Parsed? && Decide(incoming.request, env).Reject? ==>
              var d := Decide(incoming.request, env);
              r == JsonError(d.status, d.error)
    ensures incoming.Parsed? && Decide(incoming.request, env).Forward? ==>
              match fetch
              case FetchFailed(msg) => r == JsonError(500, ErrorMessage(msg))
              case Responded(res) => r == Relay(Decide(incoming.request, env).request.adapter, res)
  {
    match incoming
    case Unparsable(msg) => JsonError(500, ErrorMessage(msg))
    case Parsed(req) =>
      match Decide(req, env)
      case Reject(status, error) => JsonError(status, error)
      case Forward(out) =>
        match fetch
        case FetchFailed(msg) => JsonError(500, ErrorMessage(msg))
        case Responded(res) => Relay(out.adapter, res)
  }

  // ---------------------------------------------------------------------
  // Properties of the handler
  // ---------------------------------------------------------------------

  /**
   * A request that is rejected before the adapter runs gets the same answer
   * whatever the upstream would have done: no outbound call is involved.
   */
  lemma RejectedRequestsSendNothing(req: ChatRequest, env: Env.Environment, f1: FetchOutcome, f2: FetchOutcome)
    requires Decide(req, env).Reject?
    ensures Post(Parsed(req), env, f1) == Post(Parsed(req), env, f2)
    ensures Post(Parsed(req), env, f1).JsonError?
    ensures Post(Parsed(req), env, f1).status in {400, 500}
  {
  }

  /**
   * Once a request has been sent and answered, the caller sees the upstream
   * status; a JSON error instead of the stream happens only for the two lite
   * Gemini adapters on a non-2xx status, and then carries the upstream text.
   */
  lemma UpstreamStatusKept(req: ChatRequest, env: Env.Environment, res: Upstream)
    requires Decide(req, env).Forward?
    ensures var r := Post(Parsed(req), env, Responded(res));
      && r.status == res.status
      && (r.JsonError? <==> ChecksUpstreamStatus(Decide(req, env).request.adapter) && !IsOk(res.status))
      && (r.JsonError? ==> r.error == res.body)
      && (r.Stream? ==> r.body == res.body && r.cacheControl == NoStore)
  {
  }

  /** Both DeepSeek ids reach one adapter, which keeps the id and adds a temperature only for the chat model. */
  lemma DeepSeekDispatch(model: string, messages: seq<ChatMessage>, env: Env.Environment)
    requires model == DeepSeekChat || model == DeepSeekReasoner
    requires Env.Present(env, Env.DeepSeekKey)
    ensures var d := Decide(ChatRequest(Some(model), Some(messages)), env);
      && d.Forward? && d.request.adapter == DeepSeek && d.request.body.DeepSeekJson?
      && d.request.body.deepSeek.model == model
      && d.request.body.deepSeek.messages == messages
      && d.request.body.deepSeek.stream
      && (d.request.body.deepSeek.temperature.Some? <==> model == DeepSeekChat)
  {
  }

  /** A DeepSeek request without `DEEPSEEK_API_KEY` is refused with the 500 naming that key. */
  lemma DeepSeekMissingKey(model: string, messages: seq<ChatMessage>, env: Env.Environment)
    requires model == DeepSeekChat || model == DeepSeekReasoner
    requires !Env.Present(env, Env.DeepSeekKey)
    ensures Decide(ChatRequest(Some(model), Some(messages)), env) ==
            Reject(500, "DEEPSEEK_API_KEY not set in environment")
  {
    assert AdapterFor(model) == Some(DeepSeek) && model in AcceptedIds;
    assert CredentialOf(DeepSeek) == Env.DeepSeekKey;
    DeepSeekNotSet();
  }

  /** The adapters that forward `messages` as given send every message, extra fields included. */
  lemma PassThroughAdapters(model: string, messages: seq<ChatMessage>, env: Env.Environment)
    requires model in {DeepSeekChat, DeepSeekReasoner, Gpt4oMini, NebiusStudio}
    requires Env.Present(env, CredentialOf(AdapterFor(model).value))
    ensures var d := Decide(ChatRequest(Some(model), Some(messages)), env);
      && d.Forward?
      && match d.request.body
         case DeepSeekJson(p) => p.messages == messages
         case OpenAIJson(p) => p.messages == messages
         case NebiusJson(p) => p.messages == messages
         case _ => false
  {
  }

  /**
   * A Claude request with a credential: one outbound request to the Claude
   * endpoint, the key in `X-API-Key`, the fixed API version, 2048 tokens,
   * streaming, and the messages reduced to role and content in the same order.
   */
  lemma ClaudeDispatch(messages: seq<ChatMessage>, env: Env.Environment)
    requires Env.Present(env, Env.ClaudeKey)
    ensures var d := Decide(ChatRequest(Some(ClaudeId), Some(messages)), env);
      && d.Forward? && d.request.url == ClaudeUrl
      && HeaderValue(d.request.headers, "X-API-Key") == Some(env[Env.ClaudeKey])
      && HeaderValue(d.request.headers, "anthropic-version") == Some("2023-06-01")
      && d.request.body.ClaudeJson?
      && d.request.body.claude.maxTokens == 2048 && d.request.body.claude.stream
      && |d.request.body.claude.messages| == |messages|
      && forall i :: 0 <= i < |messages| ==>
           d.request.body.claude.messages[i] == ClaudeMessage(messages[i].role, messages[i].content)
  {
  }

  /** Every Gemini variant reads `GEMINI_API_KEY` and sends the reshaped conversation. */
  lemma GeminiDispatch(model: string, messages: seq<ChatMessage>, env: Env.Environment)
    requires model in {GeminiFlashId, GeminiFlashLiteId, Gemini25FlashLiteId}
    ensures var d := Decide(ChatRequest(Some(model), Some(messages)), env);
      && (d.Forward? <==> Env.Present(env, Env.GeminiKey))
      && (d.Reject? ==> d == Reject(500, "GEMINI_API_KEY not set in environment"))
      && (d.Forward? ==> d.request.body.GeminiJson? && d.request.body.gemini.contents == GeminiContents(messages))
  {
    if model == GeminiFlashId {
      GeminiDecision(GeminiFlash, model, messages, env);
    } else if model == GeminiFlashLiteId {
      GeminiDecision(GeminiFlashLite, model, messages, env);
    } else {
      GeminiDecision(Gemini25FlashLite, model, messages, env);
    }
  }

  /** `GeminiDispatch` for one Gemini adapter `a` that the table gives for `model`. */
  lemma GeminiDecision(a: Adapter, model: string, messages: seq<ChatMessage>, env: Env.Environment)
    requires a.GeminiFlash? || a.GeminiFlashLite? || a.Gemini25FlashLite?
    requires AdapterFor(model) == Some(a)
    ensures var d := Decide(ChatRequest(Some(model), Some(messages)), env);
      && (d.Forward? <==> Env.Present(env, Env.GeminiKey))
      && (d.Reject? ==> d == Reject(500, "GEMINI_API_KEY not set in environment"))
      && (d.Forward? ==> d.request.body.GeminiJson? && d.request.body.gemini.contents == GeminiContents(messages))
  {
    var req := ChatRequest(Some(model), Some(messages));
    assert model in AcceptedIds && HasModelAndMessages(req);
    assert CredentialOf(a) == Env.GeminiKey;
    if Env.Present(env, Env.GeminiKey) {
      var o := ShapeRequest(a, model, messages, env[Env.GeminiKey]);
      GeminiShape(a, model, messages, env[Env.GeminiKey]);
      assert Decide(req, env) == Forward(o);
    } else {
      GeminiNotSet();
      assert Decide(req, env) == Reject(500, Env.GeminiKey + NotSetSuffix);
    }
  }

  /** The three Gemini adapters shape their request with `GeminiRequest`. */
  lemma GeminiShape(a: Adapter, model: string, messages: seq<ChatMessage>, key: string)
    requires a.GeminiFlash? || a.GeminiFlashLite? || a.Gemini25FlashLite?
    ensures ShapeRequest(a, model, messages, key) == GeminiRequest(a, messages, key)
  {
  }

  /** The missing-credential message of the DeepSeek adapter. */
  lemma DeepSeekNotSet()
    ensures Env.DeepSeekKey + NotSetSuffix == "DEEPSEEK_API_KEY not set in environment"
  {
    var m := Env.DeepSeekKey + NotSetSuffix;
    assert m[..|Env.DeepSeekKey|] == "DEEPSEEK_API_KEY";
    assert m[|Env.DeepSeekKey|..] == " not set in environment";
  }

  /** The missing-credential message of the three Gemini adapters. */
  lemma GeminiNotSet()
    ensures Env.GeminiKey + NotSetSuffix == "GEMINI_API_KEY not set in environment"
  {
    var m := Env.GeminiKey + NotSetSuffix;
    assert m[..|Env.GeminiKey|] == "GEMINI_API_KEY";
    assert m[|Env.GeminiKey|..] == " not set in environment";
  }
}
