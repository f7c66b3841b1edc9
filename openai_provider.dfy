/**
 * The deterministic part of the OpenAI provider: validating the model,
 * shaping the request parameters, normalising the response and pricing
 * the token usage. The network call itself is not modelled.
 */
module OpenAIProvider {
  import opened Wrappers
  import opened Text
  import opened Values
  import opened Models
  import ReasoningDetector

  const ProviderName: string := "openai"

  /** A model's prices in USD per million tokens; either may be missing. */
  datatype PriceEntry = PriceEntry(costInput: Option<real>, costOutput: Option<real>)

  /** The provider's model table: the supported models and their prices. */
  type PriceTable = map<string, PriceEntry>

  /** The errors the provider raises; the wording of the API error is not modelled. */
  datatype ProviderError =
    | InvalidModel(model: string, provider: string)
    | ProviderApiError(provider: string)

  /** The supported models are exactly the keys of the model table. */
  predicate ValidateModel(model: string, table: PriceTable)
  {
    model in table
  }

  // ---------------------------------------------------------------------
  // Cost

  /** The input price of `model`, 0 when the model or the price is missing. */
  function InputPrice(model: string, table: PriceTable): real
  {
    if model in table && table[model].costInput.Some? then table[model].costInput.value else 0.0
  }

  /** The output price of `model`, 0 when the model or the price is missing. */
  function OutputPrice(model: string, table: PriceTable): real
  {
    if model in table && table[model].costOutput.Some? then table[model].costOutput.value else 0.0
  }

  predicate NonNegativePrices(table: PriceTable)
  {
    forall m :: m in table ==> InputPrice(m, table) >= 0.0 && OutputPrice(m, table) >= 0.0
  }

  /**
   * The cost in USD of a usage record: prompt tokens at the input price and
   * completion tokens at the output price, both per million tokens.
   */
  function CalculateCost(usage: Usage, model: string, table: PriceTable): (cost: real)
    ensures cost * 1000000.0 == usage.promptTokens as real * InputPrice(model, table)
                                + usage.completionTokens as real * OutputPrice(model, table)
    ensures model !in table ==> cost == 0.0
  {
    var costInput := InputPrice(model, table);
    var costOutput := OutputPrice(model, table);
    var inputCost := (usage.promptTokens as real / 1000000.0) * costInput;
    var outputCost := (usage.completionTokens as real / 1000000.0) * costOutput;
    inputCost + outputCost
  }

  /** With non-negative prices and counts the cost is non-negative. */
  lemma CostNonNegative(usage: Usage, model: string, table: PriceTable)
    requires NonNegativePrices(table)
    requires usage.promptTokens >= 0 && usage.completionTokens >= 0
    ensures CalculateCost(usage, model, table) >= 0.0
  {
    var pi, po := InputPrice(model, table), OutputPrice(model, table);
    MulNonNegative(usage.promptTokens as real, pi);
    MulNonNegative(usage.completionTokens as real, po);
  }

  /** More tokens of either kind never cost less. */
  lemma CostMonotone(u1: Usage, u2: Usage, model: string, table: PriceTable)
    requires NonNegativePrices(table)
    requires u1.promptTokens <= u2.promptTokens && u1.completionTokens <= u2.completionTokens
    ensures CalculateCost(u1, model, table) <= CalculateCost(u2, model, table)
  {
    var pi, po := InputPrice(model, table), OutputPrice(model, table);
    MulNonNegative((u2.promptTokens - u1.promptTokens) as real, pi);
    MulNonNegative((u2.completionTokens - u1.completionTokens) as real, po);
  }

  /** The cost of two usages together is the sum of their costs. */
  lemma CostAdditive(u1: Usage, u2: Usage, u: Usage, model: string, table: PriceTable)
    requires u.promptTokens == u1.promptTokens + u2.promptTokens
    requires u.completionTokens == u1.completionTokens + u2.completionTokens
    ensures CalculateCost(u, model, table) == CalculateCost(u1, model, table) + CalculateCost(u2, model, table)
  {
  }

  /** Only prompt and completion tokens are priced; cached and reasoning counts are not. */
  lemma CostIgnoresOtherCounts(u1: Usage, u2: Usage, model: string, table: PriceTable)
    requires u1.promptTokens == u2.promptTokens && u1.completionTokens == u2.completionTokens
    ensures CalculateCost(u1, model, table) == CalculateCost(u2, model, table)
  {
  }

  lemma MulNonNegative(x: real, y: real)
    requires x >= 0.0 && y >= 0.0
    ensures x * y >= 0.0
  {
  }

  // ---------------------------------------------------------------------
  // Request parameters

  /** A message as the API receives it: role and content only. */
  function MessageValue(m: Message): Value
  {
    VDict(map["role" := VStr(RoleName(m.role)), "content" := VStr(m.content)])
  }

  /** The messages in order, each reduced to its role and content. */
  function MessagesValue(messages: seq<Message>): (r: seq<Value>)
    ensures |r| == |messages|
    ensures forall i :: 0 <= i < |messages| ==> r[i] == MessageValue(messages[i])
  {
    if messages == [] then [] else [MessageValue(messages[0])] + MessagesValue(messages[1..])
  }

  /** A maximum token count is sent only when given and non-zero. */
  predicate MaxTokensGiven(request: ChatRequest)
  {
    request.maxTokens.Some? && request.maxTokens.value != 0
  }

  /** Stop sequences are sent only when given and non-empty. */
  predicate StopGiven(request: ChatRequest)
  {
    request.stop.Some? && request.stop.value != []
  }

  /** The reasoning effort is sent only when non-empty and the model name holds the letter `o`. */
  predicate SendsReasoningEffort(request: ChatRequest)
  {
    request.reasoningEffort.Some? && request.reasoningEffort.value != "" && 'o' in request.model
  }

  function StopValue(stop: seq<string>): (r: seq<Value>)
    ensures |r| == |stop| && forall i :: 0 <= i < |stop| ==> r[i] == VStr(stop[i])
  {
    if stop == [] then [] else [VStr(stop[0])] + StopValue(stop[1..])
  }

  /** The parameter `key` is the extra parameter's value when the extra parameters name it, else `v`. */
  predicate Holds(params: map<string, Value>, extra: map<string, Value>, key: string, v: Value)
  {
    key in params && params[key] == (if key in extra then extra[key] else v)
  }

  /** The keys of the non-streaming parameters, before the extra parameters are merged. */
  function ChatKeys(request: ChatRequest): set<string>
  {
    {"model", "messages", "temperature", "top_p", "frequency_penalty", "presence_penalty"}
    + (if MaxTokensGiven(request) then {"max_tokens"} else {})
    + (if StopGiven(request) then {"stop"} else {})
    + (if SendsReasoningEffort(request) then {"reasoning_effort"} else {})
  }

  /**
   * The parameters of a non-streaming completion before the extra
   * parameters are merged: `p` is the value that `request` gives each key,
   * and holds exactly the keys of `ChatKeys`.
   */
  predicate ChatBase(request: ChatRequest, p: map<string, Value>)
  {
    && p.Keys == ChatKeys(request)
    && p["model"] == VStr(request.model)
    && p["messages"] == VList(MessagesValue(request.messages))
    && p["temperature"] == VFloat(request.temperature)
    && p["top_p"] == VFloat(request.topP)
    && p["frequency_penalty"] == VFloat(request.frequencyPenalty)
    && p["presence_penalty"] == VFloat(request.presencePenalty)
    && (MaxTokensGiven(request) ==> p["max_tokens"] == VInt(request.maxTokens.value))
    && (StopGiven(request) ==> p["stop"] == VList(StopValue(request.stop.value)))
    && (SendsReasoningEffort(request) ==> p["reasoning_effort"] == VStr(request.reasoningEffort.value))
  }

  /**
   * The parameters of a non-streaming completion: the six base keys always,
   * `max_tokens`, `stop` and `reasoning_effort` only when given, then the
   * extra parameters, which win on every key they name; no other key.
   */
  predicate ChatParams(request: ChatRequest, p: map<string, Value>)
  {
    var x := request.extraParams;
    && p.Keys == ChatKeys(request) + x.Keys
    && (forall k :: k in x ==> p[k] == x[k])
    && Holds(p, x, "model", VStr(request.model))
    && Holds(p, x, "messages", VList(MessagesValue(request.messages)))
    && Holds(p, x, "temperature", VFloat(request.temperature))
    && Holds(p, x, "top_p", VFloat(request.topP))
    && Holds(p, x, "frequency_penalty", VFloat(request.frequencyPenalty))
    && Holds(p, x, "presence_penalty", VFloat(request.presencePenalty))
    && (MaxTokensGiven(request) ==> Holds(p, x, "max_tokens", VInt(request.maxTokens.value)))
    && (StopGiven(request) ==> Holds(p, x, "stop", VList(StopValue(request.stop.value))))
    && (SendsReasoningEffort(request) ==> Holds(p, x, "reasoning_effort", VStr(request.reasoningEffort.value)))
  }

  /**
   * Builds the parameters of a non-streaming completion step by step. An
   * unsupported model is rejected before anything is built.
   */
  method BuildChatParams(request: ChatRequest, table: PriceTable)
    returns (r: Result<map<string, Value>, ProviderError>)
    ensures r.Failure? <==> !ValidateModel(request.model, table)
    ensures r.Failure? ==> r.error == InvalidModel(request.model, ProviderName)
    ensures r.Success? ==> ChatParams(request, r.value)
  {
    if !ValidateModel(request.model, table) {
      return Failure(InvalidModel(request.model, ProviderName));
    }
    var params: map<string, Value> := map[
      "model" := VStr(request.model),
      "messages" := VList(MessagesValue(request.messages)),
      "temperature" := VFloat(request.temperature),
      "top_p" := VFloat(request.topP),
      "frequency_penalty" := VFloat(request.frequencyPenalty),
      "presence_penalty" := VFloat(request.presencePenalty)
    ];
    ghost var base := params;
    if MaxTokensGiven(request) {
      params := params["max_tokens" := VInt(request.maxTokens.value)];
    }
    if StopGiven(request) {
      params := params["stop" := VList(StopValue(request.stop.value))];
    }
    if SendsReasoningEffort(request) {
      params := params["reasoning_effort" := VStr(request.reasoningEffort.value)];
    }
    ghost var built := params;
    OptionalKeys(request, base, built);
    OptionalValues(request, base, built);
    if request.extraParams != map[] {
      params := params + request.extraParams;
    }
    ExtraParamsWin(built, request.extraParams, params);
    MergedChatParams(request, built, params);
    return Success(params);
  }

  /** The six parameters every non-streaming request sends. */
  predicate BaseParams(request: ChatRequest, base: map<string, Value>)
  {
    base == map[
      "model" := VStr(request.model),
      "messages" := VList(MessagesValue(request.messages)),
      "temperature" := VFloat(request.temperature),
      "top_p" := VFloat(request.topP),
      "frequency_penalty" := VFloat(request.frequencyPenalty),
      "presence_penalty" := VFloat(request.presencePenalty)
    ]
  }

  /** `built` is `base` with each optional parameter of the request added when it is given. */
  predicate WithOptional(request: ChatRequest, base: map<string, Value>, built: map<string, Value>)
  {
    var p1 := if MaxTokensGiven(request) then base["max_tokens" := VInt(request.maxTokens.value)] else base;
    var p2 := if StopGiven(request) then p1["stop" := VList(StopValue(request.stop.value))] else p1;
    built == if SendsReasoningEffort(request) then p2["reasoning_effort" := VStr(request.reasoningEffort.value)] else p2
  }

  /** Adding the optional parameters gives exactly the keys of `ChatKeys`. */
  lemma OptionalKeys(request: ChatRequest, base: map<string, Value>, built: map<string, Value>)
    requires BaseParams(request, base) && WithOptional(request, base, built)
    ensures built.Keys == ChatKeys(request)
  {
  }

  /** Adding the optional parameters keeps the six base values and sets the given optional ones. */
  lemma OptionalValues(request: ChatRequest, base: map<string, Value>, built: map<string, Value>)
    requires BaseParams(request, base) && WithOptional(request, base, built)
    requires built.Keys == ChatKeys(request)
    ensures ChatBase(request, built)
  {
  }

  /**
   * Merging the extra parameters (skipped when there are none) keeps every
   * built key, lets the extra parameters win, and adds no other key.
   */
  lemma ExtraParamsWin(built: map<string, Value>, extra: map<string, Value>, merged: map<string, Value>)
    requires merged == built + extra || (extra == map[] && merged == built)
    ensures merged.Keys == built.Keys + extra.Keys
    ensures forall k :: k in extra ==> merged[k] == extra[k]
    ensures forall k :: k in built ==> Holds(merged, extra, k, built[k])
  {
  }

  /** The base parameters with the extra parameters merged over them are the parameters of the request. */
  lemma MergedChatParams(request: ChatRequest, built: map<string, Value>, merged: map<string, Value>)
    requires ChatBase(request, built)
    requires merged.Keys == built.Keys + request.extraParams.Keys
    requires forall k :: k in request.extraParams ==> merged[k] == request.extraParams[k]
    requires forall k :: k in built ==> Holds(merged, request.extraParams, k, built[k])
    ensures ChatParams(request, merged)
  {
    var b := built;
    assert "model" in b && "messages" in b && "temperature" in b && "top_p" in b;
    assert "frequency_penalty" in b && "presence_penalty" in b;
  }

  /** The keys of the streaming parameters. */
  function StreamKeys(request: ChatRequest): set<string>
  {
    {"model", "messages", "stream", "temperature"} + (if MaxTokensGiven(request) then {"max_tokens"} else {})
  }

  /**
   * The parameters of a streaming completion: model, messages, `stream`
   * set to true and temperature, plus `max_tokens` when given. Top-p, the
   * penalties, stop sequences, the reasoning effort and the extra
   * parameters are never sent.
   */
  method BuildStreamParams(request: ChatRequest, table: PriceTable)
    returns (r: Result<map<string, Value>, ProviderError>)
    ensures r.Failure? <==> !ValidateModel(request.model, table)
    ensures r.Failure? ==> r.error == InvalidModel(request.model, ProviderName)
    ensures r.Success? ==> r.value.Keys == StreamKeys(request)
    ensures r.Success? ==>
      && r.value["model"] == VStr(request.model)
      && r.value["messages"] == VList(MessagesValue(request.messages))
      && r.value["stream"] == VBool(true)
      && r.value["temperature"] == VFloat(request.temperature)
      && (MaxTokensGiven(request) ==> r.value["max_tokens"] == VInt(request.maxTokens.value))
  {
    if !ValidateModel(request.model, table) {
      return Failure(InvalidModel(request.model, ProviderName));
    }
    var params: map<string, Value> := map[
      "model" := VStr(request.model),
      "messages" := VList(MessagesValue(request.messages)),
      "stream" := VBool(true),
      "temperature" := VFloat(request.temperature)
    ];
    if MaxTokensGiven(request) {
      params := params["max_tokens" := VInt(request.maxTokens.value)];
    }
    return Success(params);
  }

  /** What a streaming request never sends, whatever the request holds. */
  lemma StreamOmits(request: ChatRequest)
    ensures forall k :: k in StreamKeys(request) ==> k !in {"top_p", "frequency_penalty", "presence_penalty", "stop", "reasoning_effort"}
    ensures forall k :: k in request.extraParams && k !in {"model", "messages", "stream", "temperature", "max_tokens"}
                        ==> k !in StreamKeys(request)
  {
  }

  /**
   * The reasoning-effort gate tests for the letter `o` anywhere in the
   * name, not for a reasoning model: gpt-4o receives the effort although it
   * is not a reasoning model, and gpt-5 does not although it is one.
   */
  lemma ReasoningEffortGate(effort: string)
    requires effort != ""
    ensures var request := DefaultRequest("gpt-4o", []).(reasoningEffort := Some(effort));
      SendsReasoningEffort(request) && !ReasoningDetector.IsReasoningModel("openai", "gpt-4o", None)
    ensures var request := DefaultRequest("gpt-5", []).(reasoningEffort := Some(effort));
      !SendsReasoningEffort(request) && ReasoningDetector.IsReasoningModel("openai", "gpt-5", None)
  {
    assert "gpt-4o"[5] == 'o';
    ReasoningDetector.Gpt4oIsNotReasoning();
    assert Lower("gpt-5") == "gpt-5";
    assert ReasoningDetector.OSeriesName("gpt-5");
  }

  // ---------------------------------------------------------------------
  // Response normalisation

  /** A key of a response dictionary: missing, present and null, or present with a value. */
  datatype Field<+T> = Absent | Null | Present(value: T)

  /**
   * The `usage` object of a response: its integer counters by name and the
   * two detail objects.
   */
  datatype RawUsage = RawUsage(
    counts: map<string, int>,
    promptTokensDetails: Field<map<string, int>>,
    completionTokensDetails: Field<map<string, int>>)

  /** One choice: the message content (which may be null) and the finish reason. */
  datatype RawChoice = RawChoice(content: Option<string>, finishReason: string)

  /** A completion response as the client library returns it. */
  datatype RawResponse = RawResponse(
    id: string,
    model: string,
    created: int,
    choices: seq<RawChoice>,
    usage: Field<RawUsage>)

  /** A counter of a dictionary, 0 when missing. */
  function CountOr0(d: map<string, int>, key: string): int
  {
    if key in d then d[key] else 0
  }

  /** A nested dictionary with the empty one as default: `None` when the key is present but null. */
  function DictOrEmpty<T>(f: Field<map<string, T>>): Option<map<string, T>>
  {
    match f
    case Absent => Some(map[])
    case Null => None
    case Present(d) => Some(d)
  }

  /** The usage record built from the counters and the two detail dictionaries. */
  function UsageFrom(counts: map<string, int>, promptDetails: map<string, int>,
                     completionDetails: map<string, int>): Usage
  {
    Usage(
      promptTokens := CountOr0(counts, "prompt_tokens"),
      completionTokens := CountOr0(counts, "completion_tokens"),
      totalTokens := CountOr0(counts, "total_tokens"),
      cachedTokens := CountOr0(promptDetails, "cached_tokens"),
      cacheCreationTokens := 0,
      cacheReadTokens := 0,
      reasoningTokens := CountOr0(completionDetails, "reasoning_tokens"),
      costUsd := 0.0,
      costBreakdown := None)
  }

  /** The unified response for the first choice and a usage record, priced on the response's model. */
  function ResponseFrom(raw: RawResponse, usage: Usage, table: PriceTable): ChatResponse
    requires |raw.choices| > 0
  {
    var choice := raw.choices[0];
    var priced := usage.(costUsd := CalculateCost(usage, raw.model, table));
    ChatResponse(
      id := raw.id,
      model := raw.model,
      content := if choice.content.Some? then choice.content.value else "",
      finishReason := choice.finishReason,
      usage := priced,
      provider := ProviderName,
      createdAt := raw.created,
      latencyMs := None)
  }

  /**
   * The response as written: the first choice is taken, the counters
   * default to 0 when missing, a null content becomes "". A response without
   * choices, or whose usage or detail object is present but null, makes the
   * lookups fail, and the completion call reports that as an API error.
   */
  function NormalizeResponse(raw: RawResponse, table: PriceTable): (r: Result<ChatResponse, ProviderError>)
    ensures r.Failure? ==> r.error == ProviderApiError(ProviderName)
    ensures r.Failure? <==> raw.choices == [] || raw.usage.Null?
                            || (raw.usage.Present? && (raw.usage.value.promptTokensDetails.Null?
                                                       || raw.usage.value.completionTokensDetails.Null?))
  {
    if raw.choices == [] then Failure(ProviderApiError(ProviderName))
    else
      match raw.usage
      case Null => Failure(ProviderApiError(ProviderName))
      case Absent => Success(ResponseFrom(raw, UsageFrom(map[], map[], map[]), table))
      case Present(u) =>
        var promptDetails := DictOrEmpty(u.promptTokensDetails);
        var completionDetails := DictOrEmpty(u.completionTokensDetails);
        if promptDetails.None? || completionDetails.None? then Failure(ProviderApiError(ProviderName))
        else Success(ResponseFrom(raw, UsageFrom(u.counts, promptDetails.value, completionDetails.value), table))
  }

  /**
   * The counters a successful normalisation reports: each is the
   * response's, or 0 when it or the detail object holding it is missing;
   * the two cache counters the provider never reports are 0.
   */
  lemma NormalizeDefaults(raw: RawResponse, table: PriceTable)
    requires NormalizeResponse(raw, table).Success?
    ensures var usage := NormalizeResponse(raw, table).value.usage;
      var counts := if raw.usage.Present? then raw.usage.value.counts else map[];
      && usage.promptTokens == CountOr0(counts, "prompt_tokens")
      && usage.completionTokens == CountOr0(counts, "completion_tokens")
      && usage.totalTokens == CountOr0(counts, "total_tokens")
      && usage.cacheCreationTokens == 0 && usage.cacheReadTokens == 0
      && (raw.usage.Absent? ==> usage.promptTokens == usage.completionTokens == usage.totalTokens
                                == usage.cachedTokens == usage.reasoningTokens == 0)
    ensures raw.usage.Present? ==>
      var u, usage := raw.usage.value, NormalizeResponse(raw, table).value.usage;
      && usage.cachedTokens
         == (if u.promptTokensDetails.Present? then CountOr0(u.promptTokensDetails.value, "cached_tokens") else 0)
      && usage.reasoningTokens
         == (if u.completionTokensDetails.Present? then CountOr0(u.completionTokensDetails.value, "reasoning_tokens") else 0)
  {
  }

  /**
   * A successful normalisation keeps the first choice's content (null
   * becomes ""), tags the provider, and prices the usage on the model the
   * response names, so a model missing from the table costs nothing.
   */
  lemma NormalizeContentAndCost(raw: RawResponse, table: PriceTable)
    requires NormalizeResponse(raw, table).Success?
    ensures var resp := NormalizeResponse(raw, table).value;
      && resp.content == (if raw.choices[0].content.Some? then raw.choices[0].content.value else "")
      && resp.provider == ProviderName && resp.id == raw.id && resp.model == raw.model
      && resp.finishReason == raw.choices[0].finishReason && resp.createdAt == raw.created
      && resp.usage.costUsd == CalculateCost(resp.usage, raw.model, table)
      && (raw.model !in table ==> resp.usage.costUsd == 0.0)
  {
  }

  /**
   * The response a client library gives when the server reports no token
   * details: `usage` holds the counters and `prompt_tokens_details` is null.
   */
  function ResponseWithNullDetails(): RawResponse
  {
    RawResponse("chatcmpl-1", "gpt-4o", 0, [RawChoice(Some("hi"), "stop")],
                Present(RawUsage(map["prompt_tokens" := 5, "completion_tokens" := 2, "total_tokens" := 7],
                                 Null, Absent)))
  }

  /** As written, that response fails although it has a choice and all its counters. */
  lemma NullDetailsAbort(table: PriceTable)
    ensures NormalizeResponse(ResponseWithNullDetails(), table).Failure?
    ensures NormalizeResponseNullSafe(ResponseWithNullDetails(), table).Success?
  {
  }

  /** A nested dictionary where null reads as missing. */
  function DictOrEmptyNullSafe<T>(f: Field<map<string, T>>): map<string, T>
  {
    if f.Present? then f.value else map[]
  }

  /**
   * The normalisation evidently intended: a null usage or detail object
   * reads as a missing one, so only a response without choices fails.
   */
  function NormalizeResponseNullSafe(raw: RawResponse, table: PriceTable): (r: Result<ChatResponse, ProviderError>)
    ensures r.Failure? <==> raw.choices == []
  {
    if raw.choices == [] then Failure(ProviderApiError(ProviderName))
    else
      var u := if raw.usage.Present? then raw.usage.value else RawUsage(map[], Absent, Absent);
      var usage := UsageFrom(u.counts, DictOrEmptyNullSafe(u.promptTokensDetails),
                             DictOrEmptyNullSafe(u.completionTokensDetails));
      Success(ResponseFrom(raw, usage, table))
  }

  /** The null-safe normalisation agrees with the original wherever the original succeeds. */
  lemma NullSafeAgrees(raw: RawResponse, table: PriceTable)
    requires NormalizeResponse(raw, table).Success?
    ensures NormalizeResponseNullSafe(raw, table) == NormalizeResponse(raw, table)
  {
  }

  /** With null-safe reading, a null usage reports 0 for every counter, like a missing one. */
  lemma NullSafeDefaults(raw: RawResponse, table: PriceTable)
    requires raw.choices != [] && raw.usage.Null?
    ensures var usage := NormalizeResponseNullSafe(raw, table).value.usage;
      usage.promptTokens == usage.completionTokens == usage.totalTokens
      == usage.cachedTokens == usage.reasoningTokens == 0
      && usage.cacheCreationTokens == 0 && usage.cacheReadTokens == 0
      && usage.costUsd == 0.0
  {
  }

  /**
   * With null-safe reading, a null detail object gives the same response as
   * a missing one, so its counter reports 0.
   */
  lemma NullDetailsReadAsAbsent(raw: RawResponse, u: RawUsage, table: PriceTable)
    requires raw.choices != [] && raw.usage == Present(u)
    ensures u.promptTokensDetails.Null? ==>
      NormalizeResponseNullSafe(raw, table)
      == NormalizeResponseNullSafe(raw.(usage := Present(u.(promptTokensDetails := Absent))), table)
    ensures u.completionTokensDetails.Null? ==>
      NormalizeResponseNullSafe(raw, table)
      == NormalizeResponseNullSafe(raw.(usage := Present(u.(completionTokensDetails := Absent))), table)
    ensures u.promptTokensDetails.Null? ==> NormalizeResponseNullSafe(raw, table).value.usage.cachedTokens == 0
    ensures u.completionTokensDetails.Null? ==> NormalizeResponseNullSafe(raw, table).value.usage.reasoningTokens == 0
  {
  }
}
