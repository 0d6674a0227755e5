/**
 * The model availability endpoint, `POST /api/models` and its `OPTIONS`
 * preflight (app/api/models/route.ts).
 *
 * The handler builds its list step by step, appending each provider's fixed
 * descriptors when that provider's credential is configured, and falls back
 * to the two DeepSeek descriptors when nothing was appended.
 */
module ModelsRoute {
  import opened Wrappers
  import opened Http
  import Env
  import ChatRoute

  /** One selectable model as the front end shows it. */
  datatype ModelDescriptor = ModelDescriptor(value: string, displayLabel: string, disabled: bool)

  const DeepSeekV3Entry: ModelDescriptor := ModelDescriptor("deepseek-chat", "DeepSeek-V3", false)
  const DeepSeekR1Entry: ModelDescriptor := ModelDescriptor("deepseek-reasoner", "DeepSeek-R1", false)
  const Gpt4oMiniEntry: ModelDescriptor := ModelDescriptor("gpt-4o-mini", "GPT-4o Mini (OpenAI)", false)
  const GeminiFlashEntry: ModelDescriptor := ModelDescriptor("gemini-flash", "Gemini 2.0 Flash (Google)", false)
  const GeminiFlashLiteEntry: ModelDescriptor :=
    ModelDescriptor("gemini-flash-lite", "Gemini 2.0 Flash-Lite (Google)", false)
  const ClaudeSonnetEntry: ModelDescriptor := ModelDescriptor("claude", "Claude 3 Sonnet (Anthropic)", false)
  const NebiusStudioEntry: ModelDescriptor := ModelDescriptor("nebius-studio", "Nebius Studio", false)

  /** The pair returned when no credential is configured, and on failure. */
  const FallbackModels: seq<ModelDescriptor> := [DeepSeekV3Entry, DeepSeekR1Entry]

  /** The order in which the handler tests the credentials. */
  const ProviderOrder: seq<string> :=
    [Env.DeepSeekKey, Env.OpenAIKey, Env.GeminiKey, Env.ClaudeKey, Env.NebiusKey]

  /**
   * The descriptors a configured credential contributes: two for DeepSeek and
   * for Gemini, one for each other provider, none for any other variable; all
   * of them enabled.
   */
  function ProviderEntries(key: string): (ds: seq<ModelDescriptor>)
    ensures |ds| == (if key == Env.DeepSeekKey || key == Env.GeminiKey then 2
                     else if key == Env.OpenAIKey || key == Env.ClaudeKey || key == Env.NebiusKey then 1 else 0)
    ensures forall i :: 0 <= i < |ds| ==> !ds[i].disabled
  {
    if key == Env.DeepSeekKey then [DeepSeekV3Entry, DeepSeekR1Entry]
    else if key == Env.OpenAIKey then [Gpt4oMiniEntry]
    else if key == Env.GeminiKey then [GeminiFlashEntry, GeminiFlashLiteEntry]
    else if key == Env.ClaudeKey then [ClaudeSonnetEntry]
    else if key == Env.NebiusKey then [NebiusStudioEntry]
    else []
  }

  /** What the keys in `order` contribute, each in turn: its entries if configured, nothing otherwise. */
  function Contributions(env: Env.Environment, order: seq<string>): (ds: seq<ModelDescriptor>)
    decreases |order|
  {
    if order == [] then []
    else (if Env.Present(env, order[0]) then ProviderEntries(order[0]) else []) + Contributions(env, order[1..])
  }

  /** At least one of the five credentials is configured. */
  predicate AnyCredential(env: Env.Environment) {
    exists k :: k in ProviderOrder && Env.Present(env, k)
  }

  /**
   * The list the handler reports: never empty; the DeepSeek pair when no
   * credential is configured, and otherwise what the configured credentials
   * contribute in provider order.
   */
  function AvailableModels(env: Env.Environment): (ds: seq<ModelDescriptor>)
    ensures |ds| > 0
    ensures !AnyCredential(env) ==> ds == FallbackModels
    ensures AnyCredential(env) ==> ds == Contributions(env, ProviderOrder)
  {
    ContributionsNonEmpty(env);
    var listed := Contributions(env, ProviderOrder);
    if listed == [] then FallbackModels else listed
  }

  /** What one credential contributes, or nothing when it is not configured. */
  function Block(env: Env.Environment, key: string): seq<ModelDescriptor> {
    if Env.Present(env, key) then ProviderEntries(key) else []
  }

  /**
   * The contributions are five consecutive groups in the order DeepSeek,
   * OpenAI, Gemini, Claude, Nebius; a configured credential contributes its
   * fixed entries and an unconfigured one contributes none.
   */
  lemma ContributionsLayout(env: Env.Environment)
    ensures Contributions(env, ProviderOrder) ==
      Block(env, Env.DeepSeekKey) + Block(env, Env.OpenAIKey) + Block(env, Env.GeminiKey) +
      Block(env, Env.ClaudeKey) + Block(env, Env.NebiusKey)
  {
    var o := ProviderOrder;
    assert o[1..][1..][1..][1..][1..] == [];
    assert Contributions(env, o[1..][1..][1..][1..]) == Block(env, Env.NebiusKey);
    assert Contributions(env, o[1..][1..][1..]) == Block(env, Env.ClaudeKey) + Block(env, Env.NebiusKey);
    assert Contributions(env, o[1..][1..]) ==
      Block(env, Env.GeminiKey) + (Block(env, Env.ClaudeKey) + Block(env, Env.NebiusKey));
    assert Contributions(env, o[1..]) ==
      Block(env, Env.OpenAIKey) + (Block(env, Env.GeminiKey) + (Block(env, Env.ClaudeKey) + Block(env, Env.NebiusKey)));
  }

  /** The list as the handler builds it: five conditional pushes, then the fallback. */
  method ListModels(env: Env.Environment) returns (models: seq<ModelDescriptor>)
    ensures models == AvailableModels(env)
  {
    models := [];
    if Env.Present(env, Env.DeepSeekKey) {
      models := models + [DeepSeekV3Entry, DeepSeekR1Entry];
    }
    assert models == Block(env, Env.DeepSeekKey);
    if Env.Present(env, Env.OpenAIKey) {
      models := models + [Gpt4oMiniEntry];
    }
    assert models == Block(env, Env.DeepSeekKey) + Block(env, Env.OpenAIKey);
    if Env.Present(env, Env.GeminiKey) {
      models := models + [GeminiFlashEntry, GeminiFlashLiteEntry];
    }
    assert models == Block(env, Env.DeepSeekKey) + Block(env, Env.OpenAIKey) + Block(env, Env.GeminiKey);
    if Env.Present(env, Env.ClaudeKey) {
      models := models + [ClaudeSonnetEntry];
    }
    assert models == Block(env, Env.DeepSeekKey) + Block(env, Env.OpenAIKey) + Block(env, Env.GeminiKey) +
                     Block(env, Env.ClaudeKey);
    if Env.Present(env, Env.NebiusKey) {
      models := models + [NebiusStudioEntry];
    }
    assert models == Block(env, Env.DeepSeekKey) + Block(env, Env.OpenAIKey) + Block(env, Env.GeminiKey) +
                     Block(env, Env.ClaudeKey) + Block(env, Env.NebiusKey);
    ContributionsLayout(env);
    assert models == Contributions(env, ProviderOrder);
    if |models| == 0 {
      models := models + FallbackModels;
      assert models == FallbackModels;
    }
  }

  // ---------------------------------------------------------------------
  // Properties of the list
  // ---------------------------------------------------------------------

  /** Each provider's entries name models the chat endpoint routes to an adapter reading that provider's key. */
  lemma EntriesMatchDispatcher(key: string)
    ensures forall d :: d in ProviderEntries(key) ==>
      && d.value in ChatRoute.AcceptedIds
      && d.value != ChatRoute.Gemini25FlashLiteId
      && ChatRoute.CredentialOf(ChatRoute.AdapterFor(d.value).value) == key
      && !d.disabled
  {
  }

  /** A descriptor is contributed exactly when some configured key in `order` lists it. */
  lemma {:induction false} ContributionsMembership(env: Env.Environment, order: seq<string>, d: ModelDescriptor)
    ensures d in Contributions(env, order) <==>
              exists i :: 0 <= i < |order| && Env.Present(env, order[i]) && d in ProviderEntries(order[i])
    decreases |order|
  {
    if order != [] {
      ContributionsMembership(env, order[1..], d);
      if d in Contributions(env, order[1..]) {
        var i :| 0 <= i < |order[1..]| && Env.Present(env, order[1..][i]) && d in ProviderEntries(order[1..][i]);
        assert order[1..][i] == order[i + 1];
      }
      if exists i :: 0 <= i < |order| && Env.Present(env, order[i]) && d in ProviderEntries(order[i]) {
        var i :| 0 <= i < |order| && Env.Present(env, order[i]) && d in ProviderEntries(order[i]);
        if i > 0 {
          assert order[1..][i - 1] == order[i];
        }
      }
    }
  }

  /** With no credential configured the list is exactly the DeepSeek pair. */
  lemma NoCredentialFallback(env: Env.Environment)
    requires !AnyCredential(env)
    ensures AvailableModels(env) == [ModelDescriptor("deepseek-chat", "DeepSeek-V3", false),
                                     ModelDescriptor("deepseek-reasoner", "DeepSeek-R1", false)]
  {
    ContributionsLayout(env);
  }

  /** 1 when the credential is configured, 0 otherwise. */
  function Bit(env: Env.Environment, key: string): nat {
    if Env.Present(env, key) then 1 else 0
  }

  /** With some credential configured the list has two DeepSeek, one OpenAI, two Gemini, one Claude and one Nebius entry per configured key. */
  lemma AvailableModelsCount(env: Env.Environment)
    requires AnyCredential(env)
    ensures |AvailableModels(env)| ==
      2 * Bit(env, Env.DeepSeekKey) + Bit(env, Env.OpenAIKey) + 2 * Bit(env, Env.GeminiKey) +
      Bit(env, Env.ClaudeKey) + Bit(env, Env.NebiusKey)
  {
    ContributionsLayout(env);
    assert |Block(env, Env.DeepSeekKey)| == 2 * Bit(env, Env.DeepSeekKey);
    assert |Block(env, Env.OpenAIKey)| == Bit(env, Env.OpenAIKey);
    assert |Block(env, Env.GeminiKey)| == 2 * Bit(env, Env.GeminiKey);
    assert |Block(env, Env.ClaudeKey)| == Bit(env, Env.ClaudeKey);
    assert |Block(env, Env.NebiusKey)| == Bit(env, Env.NebiusKey);
    ContributionsNonEmpty(env);
  }

  /** Something is contributed exactly when some credential is configured: the fallback is used only when none is. */
  lemma ContributionsNonEmpty(env: Env.Environment)
    ensures Contributions(env, ProviderOrder) != [] <==> AnyCredential(env)
  {
    var listed := Contributions(env, ProviderOrder);
    if AnyCredential(env) {
      var k :| k in ProviderOrder && Env.Present(env, k);
      var i :| 0 <= i < |ProviderOrder| && ProviderOrder[i] == k;
      ContributionsMembership(env, ProviderOrder, ProviderEntries(k)[0]);
    }
    if listed != [] {
      ContributionsMembership(env, ProviderOrder, listed[0]);
      var i :| 0 <= i < |ProviderOrder| && Env.Present(env, ProviderOrder[i]) && listed[0] in ProviderEntries(ProviderOrder[i]);
      assert ProviderOrder[i] in ProviderOrder;
    }
  }

  /** A descriptor is listed exactly when a configured key contributes it, or when it is part of the fallback and nothing is configured. */
  lemma AvailableModelsMembership(env: Env.Environment, d: ModelDescriptor)
    ensures d in AvailableModels(env) <==>
      || (exists k :: k in ProviderOrder && Env.Present(env, k) && d in ProviderEntries(k))
      || (!AnyCredential(env) && d in FallbackModels)
    ensures AnyCredential(env) ==> AvailableModels(env) == Contributions(env, ProviderOrder)
  {
    ContributionsNonEmpty(env);
    ContributionsMembership(env, ProviderOrder, d);
    if exists k :: k in ProviderOrder && Env.Present(env, k) && d in ProviderEntries(k) {
      var k :| k in ProviderOrder && Env.Present(env, k) && d in ProviderEntries(k);
      var i :| 0 <= i < |ProviderOrder| && ProviderOrder[i] == k;
      assert Env.Present(env, ProviderOrder[i]) && d in ProviderEntries(ProviderOrder[i]);
    }
    if exists i :: 0 <= i < |ProviderOrder| && Env.Present(env, ProviderOrder[i]) && d in ProviderEntries(ProviderOrder[i]) {
      var i :| 0 <= i < |ProviderOrder| && Env.Present(env, ProviderOrder[i]) && d in ProviderEntries(ProviderOrder[i]);
      assert ProviderOrder[i] in ProviderOrder;
    }
  }

  /**
   * Everything the list offers is enabled and is a model id the chat endpoint
   * accepts; `gemini-2-5-flash-lite`, which the chat endpoint accepts, is never
   * offered. The list is never empty.
   */
  lemma ListedModelsAccepted(env: Env.Environment)
    ensures |AvailableModels(env)| > 0
    ensures forall d :: d in AvailableModels(env) ==>
      && !d.disabled
      && d.value in ChatRoute.AcceptedIds
      && d.value != ChatRoute.Gemini25FlashLiteId
  {
    forall d | d in AvailableModels(env)
      ensures !d.disabled && d.value in ChatRoute.AcceptedIds && d.value != ChatRoute.Gemini25FlashLiteId
    {
      AvailableModelsMembership(env, d);
      if !(!AnyCredential(env) && d in FallbackModels) {
        var k :| k in ProviderOrder && Env.Present(env, k) && d in ProviderEntries(k);
        EntriesMatchDispatcher(k);
      }
    }
    ContributionsLayout(env);
  }

  /**
   * When some credential is configured, choosing any listed model gets past
   * the chat endpoint's validation, table and credential check.
   */
  lemma ListedModelsDispatch(env: Env.Environment, d: ModelDescriptor, messages: seq<ChatRoute.ChatMessage>)
    requires AnyCredential(env)
    requires d in AvailableModels(env)
    ensures ChatRoute.Decide(ChatRoute.ChatRequest(Some(d.value), Some(messages)), env).Forward?
  {
    AvailableModelsMembership(env, d);
    var k :| k in ProviderOrder && Env.Present(env, k) && d in ProviderEntries(k);
    EntriesMatchDispatcher(k);
  }

  /**
   * The fallback pair is offered with no credential configured, so choosing
   * either of its models is refused by the chat endpoint for the missing
   * DeepSeek key.
   */
  lemma FallbackModelsRefused(env: Env.Environment, d: ModelDescriptor, messages: seq<ChatRoute.ChatMessage>)
    requires !AnyCredential(env)
    requires d in AvailableModels(env)
    ensures ChatRoute.Decide(ChatRoute.ChatRequest(Some(d.value), Some(messages)), env) ==
            ChatRoute.Reject(500, "DEEPSEEK_API_KEY not set in environment")
  {
    assert d == DeepSeekV3Entry || d == DeepSeekR1Entry;
    assert !Env.Present(env, Env.DeepSeekKey) by {
      assert ProviderOrder[0] == Env.DeepSeekKey && ProviderOrder[0] in ProviderOrder;
    }
    ChatRoute.DeepSeekMissingKey(d.value, messages, env);
  }

  /**
   * Conversely, every model the chat endpoint would forward is listed, except
   * `gemini-2-5-flash-lite`.
   */
  lemma DispatchableModelsListed(env: Env.Environment, id: string)
    requires id in ChatRoute.AcceptedIds && id != ChatRoute.Gemini25FlashLiteId
    requires Env.Present(env, ChatRoute.CredentialOf(ChatRoute.AdapterFor(id).value))
    ensures exists d :: d in AvailableModels(env) && d.value == id && !d.disabled
  {
    var k := ChatRoute.CredentialOf(ChatRoute.AdapterFor(id).value);
    var d :| d in ProviderEntries(k) && d.value == id;
    assert k in ProviderOrder;
    AvailableModelsMembership(env, d);
  }

  // ---------------------------------------------------------------------
  // The handlers
  // ---------------------------------------------------------------------

  /** The permissive cross-origin headers both handlers send on success. */
  const CorsHeaders: seq<Header> := [
    Header("Access-Control-Allow-Origin", "*"),
    Header("Access-Control-Allow-Methods", "POST, OPTIONS"),
    Header("Access-Control-Allow-Headers", "Content-Type")
  ]

  /** The JSON answer of `POST`: `{models}`, or `{error, models}` on failure. */
  datatype ModelsResponse = ModelsResponse(
    status: int, headers: seq<Header>, error: Option<string>, models: seq<ModelDescriptor>)

  /** An answer with no body. */
  datatype EmptyResponse = EmptyResponse(status: int, headers: seq<Header>)

  /** `OPTIONS`: status 200, no body, the permissive cross-origin headers. */
  function Preflight(): (r: EmptyResponse)
    ensures r.status == 200
    ensures HeaderValue(r.headers, "Access-Control-Allow-Origin") == Some("*")
    ensures HeaderValue(r.headers, "Access-Control-Allow-Methods") == Some("POST, OPTIONS")
    ensures HeaderValue(r.headers, "Access-Control-Allow-Headers") == Some("Content-Type")
  {
    var hs := CorsHeaders;
    assert hs[1..][1..] == [hs[2]];
    EmptyResponse(200, hs)
  }

  /**
   * `POST`. `fault` stands for an exception raised inside the `try` block, with
   * its message: the answer is then status 500, the error text, the fallback
   * pair, and only a JSON content type (no cross-origin headers).
   */
  method Post(env: Env.Environment, fault: Option<string>) returns (r: ModelsResponse)
    ensures fault.None? ==> r.status == 200 && r.error.None? && r.models == AvailableModels(env)
    ensures fault.None? ==> r.headers == [JsonContentType] + Preflight().headers
    ensures fault.Some? ==>
      r == ModelsResponse(500, [JsonContentType], Some(ErrorMessage(fault.value)), FallbackModels)
    ensures fault.Some? ==> HeaderValue(r.headers, "Access-Control-Allow-Origin") == None
    ensures |r.models| > 0 && forall d :: d in r.models ==> !d.disabled && d.value in ChatRoute.AcceptedIds
  {
    if fault.Some? {
      r := ModelsResponse(500, [JsonContentType], Some(ErrorMessage(fault.value)), FallbackModels);
      return;
    }
    var headers := [JsonContentType] + CorsHeaders;
    var models := ListModels(env);
    ListedModelsAccepted(env);
    r := ModelsResponse(200, headers, None, models);
  }
}
