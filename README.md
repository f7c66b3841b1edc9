# StratifyAI core: reasoning detection, vision content, OpenAI request and response shaping

StratifyAI gives one interface to many LLM providers. This project models three
deterministic pieces of it in Dafny and proves properties of them.

- **Reasoning-model detection** (`ReasoningDetector`, `reasoning_detector.dfy`).
  A model is a reasoning model when an optional model catalog flags it.
  Failing that, a per-provider rule applies to the lowercased model name:
  - the o-series patterns for openai, deepseek and openrouter;
  - the grok patterns;
  - the deepseek patterns;
  - the groq patterns.
  `get_temperature_for_model` gives 1.0 for a reasoning model; for any other
  model it gives the requested temperature, or the default when none is
  requested. (The OpenAI provider itself sends the request's temperature
  unchanged.)
- **Messages and vision content** (`Models`, `models.dfy`).
  This module holds the `Message`, `Usage`, `ChatRequest` and `ChatResponse`
  records. It also holds the `[IMAGE:<mime>]` marker convention:
  - detecting the marker;
  - parsing a message into its leading text and the last well-formed image.
  The parser is a method with the original's loop over the split pieces. It
  is proved equal to a declarative specification, `VisionOf`. Lemmas about
  that specification cover:
  - which text is kept;
  - which image wins;
  - the round trip of the documented format.
- **OpenAI provider** (`OpenAIProvider`, `openai_provider.dfy`):
  - model validation;
  - the parameter dictionaries for normal and streaming completions, built by methods;
  - normalisation of a raw response into the unified response;
  - cost in USD from the per-million-token price table.

Two support modules hold the rest:
- `Text` (`text.dfy`) models the Python string operations the core uses:
  - substring test, `startswith`, `split` and `join`;
  - `strip` with Python's whitespace set;
  - ASCII `lower`.

  It also proves the split/join and strip facts the parser needs.
- `Values` (`values.dfy`) models Python values as they appear in dictionaries:
  - None, bool, int, float, str, list and dict;
  - truthiness and `dict.get`.

Modelling choices:
- The provider's model table (`OPENAI_MODELS`) is a parameter, `PriceTable`.
  It holds only the two prices.
- A model is valid when it is a key of the table.
- Floats are modelled as `real`.

## Model

| member | source | states |
|---|---|---|
| ReasoningDetector.IsReasoningModel | stratifyai/utils/reasoning_detector.py:10-84 | a model reasons exactly when the catalog flags it, or when its name is non-empty and passes the rule of its provider (`ProviderRule`) on the lowercased name |
| ReasoningDetector.CatalogFlagDecides | stratifyai/utils/reasoning_detector.py:38-43 | a truthy `reasoning_model` flag in a non-empty catalog makes the model a reasoning model whatever its name |
| ReasoningDetector.CatalogOnlyAdds | stratifyai/utils/reasoning_detector.py:38-47 | the catalog can only add reasoning models: without its flag the answer equals the answer without a catalog |
| ReasoningDetector.EmptyNameNeedsCatalog | stratifyai/utils/reasoning_detector.py:46-47 | an empty model name is a reasoning model only through the catalog |
| ReasoningDetector.CaseInsensitive | stratifyai/utils/reasoning_detector.py:49 | without a catalog, two names that lowercase alike classify alike (catalog keys match the raw name) |
| ReasoningDetector.LowercaseClassifiesAlike | stratifyai/utils/reasoning_detector.py:49 | without a catalog, a name and its lowercase form classify alike |
| ReasoningDetector.OSeriesProviders | stratifyai/utils/reasoning_detector.py:52-62 | without a catalog, for openai, deepseek and openrouter, the o-series patterns decide. They are: prefix o1, o3 or gpt-5; "reasoner" or "reasoning" anywhere; or o followed by a digit |
| ReasoningDetector.GrokProvider | stratifyai/utils/reasoning_detector.py:65-72 | without a catalog, for grok, the grok patterns decide: "reasoning", exactly grok-4, or a grok-3-mini or grok-code prefix |
| ReasoningDetector.DeepSeekBlockSubsumed | stratifyai/utils/reasoning_detector.py:74-77 | every name the deepseek-only block accepts is already accepted by the o-series block, so that block never changes the answer |
| ReasoningDetector.GroqProvider | stratifyai/utils/reasoning_detector.py:79-82 | without a catalog, for groq, exactly names containing "reasoning" or "gpt-oss" are reasoning models |
| ReasoningDetector.UnlistedProvider | stratifyai/utils/reasoning_detector.py:52-84 | any other provider has reasoning models only through the catalog |
| ReasoningDetector.DocumentedExamples | stratifyai/utils/reasoning_detector.py:30-36 | the documented examples hold: o1 and deepseek-reasoner yes, gpt-4o no. Also O1 and grok-4 yes, and an anthropic "claude-reasoning" no |
| ReasoningDetector.LowerIdempotent | stratifyai/utils/reasoning_detector.py:49 | lowercasing twice is lowercasing once |
| ReasoningDetector.TemperatureForModel | stratifyai/utils/reasoning_detector.py:87-113 | 1.0 for a reasoning model. Otherwise the requested temperature when one is given (0.0 included), else the default |
| ReasoningDetector.ReasoningIgnoresRequest | stratifyai/utils/reasoning_detector.py:110-111 | for a reasoning model, neither the requested temperature nor the default changes the result |
| ReasoningDetector.TemperatureExamples | stratifyai/utils/reasoning_detector.py:92-113 | o1 runs at 1.0 even when 0.2 is requested. gpt-4o keeps a requested 0.0, and gets the default 0.7 when nothing is requested |
| Models.ParseVisionContent | stratifyai/models.py:20-49 | the loop over the split pieces returns exactly `VisionOf(content)`. Content without a marker is returned whole with no image |
| Models.ImageMarkerHeadUnique | stratifyai/models.py:30 | the first character of the marker does not recur in it, which the splitting lemmas need |
| Models.HasImage | stratifyai/models.py:16-18 | a message has an image exactly when its content holds the marker, which is exactly when splitting the content on the marker gives at least two pieces |
| Models.DefaultRequest | stratifyai/models.py:66-80 | a request given only model and messages has temperature 0.7, no token limit, no streaming, top-p 1.0, zero penalties, no stop sequences, no reasoning effort and no extra parameters |
| Models.LastImageStep | stratifyai/models.py:39-46 | one more piece after a marker replaces the image when it yields one, and keeps the image otherwise |
| Models.LastImageNone | stratifyai/models.py:39-46 | no image is found exactly when no piece after a marker has a `]` followed by non-blank data |
| Models.LastImageOfLastYielding | stratifyai/models.py:39-46 | the image found is the one from the last piece that yields one, whatever earlier pieces held |
| Models.TextFromLeadingPiece | stratifyai/models.py:35-38 | the text is the stripped piece before the first marker, and is absent exactly when that piece is all whitespace. Nothing after the marker contributes |
| Models.SegmentAtFirstBracket | stratifyai/models.py:41-46 | a piece splits at its first `]`. It yields an image exactly when the stripped rest is non-empty, with the stripped text before the `]` as mime type |
| Models.LastImageWins | stratifyai/models.py:34-46 | appending a marker and a piece replaces the image if that piece yields one, and keeps the previous image otherwise |
| Models.RoundTrip | stratifyai/models.py:12 | the documented format `text[IMAGE:mime]\ndata` parses back to its text, mime type and data |
| Models.FormattedSegmentFree | stratifyai/models.py:12 | the piece `mime]\ndata` of the documented format holds no marker when the mime type and data hold none |
| Models.FormattedSegment | stratifyai/models.py:41-46 | the piece `mime]\ndata` of the documented format yields exactly its mime type and data |
| Models.MarkerWithoutBracket | stratifyai/models.py:16-18 | a marker without a `]` satisfies `has_image` but yields no image: the text is kept and the image is absent |
| Text.SplitOn | stratifyai/models.py:30 | splitting always yields at least one piece |
| Text.SplitCount | stratifyai/models.py:26-30 | a string holds the separator exactly when splitting on it gives at least two pieces |
| Text.JoinSplit | stratifyai/models.py:30 | joining the pieces of a split with the separator gives back the string |
| Text.SplitFree | stratifyai/models.py:26-27 | a string without the separator is its own single piece |
| Text.SplitHolding | stratifyai/models.py:30 | a string holding the separator splits into at least two pieces |
| Text.SplitAfterFree | stratifyai/models.py:30 | for a separator whose first character does not recur in it, such as the marker: when `a` lacks the separator, `a + sep + b` splits into `a` followed by the pieces of `b` |
| Text.SplitAppend | stratifyai/models.py:30 | for a separator whose first character does not recur in it, such as the marker: splitting `c + sep + tail`, with `tail` free of the separator, appends `tail` as the last piece |
| Text.FirstIndex | stratifyai/models.py:42 | the index returned holds the character, and no earlier index does |
| Text.Strip | stratifyai/models.py:37 | the result has no leading or trailing whitespace |
| Text.StripEmpty | stratifyai/models.py:37 | stripping gives the empty string exactly when the string is all whitespace |
| Text.StripIdempotent | stratifyai/models.py:48 | stripping twice is stripping once |
| Text.StripSpacePrefix | stratifyai/models.py:44 | leading whitespace does not change the stripped result |
| Text.Lower | stratifyai/utils/reasoning_detector.py:49 | lowercasing keeps the length, lowercases each letter in place and leaves no upper-case ASCII letter |
| OpenAIProvider.CalculateCost | llm_abstraction/providers/openai.py:219-238 | the cost times one million is prompt tokens times the input price plus completion tokens times the output price. An unknown model costs 0 |
| OpenAIProvider.CostNonNegative | llm_abstraction/providers/openai.py:230-238 | with non-negative prices and counts, the cost is non-negative |
| OpenAIProvider.CostMonotone | llm_abstraction/providers/openai.py:235-238 | more prompt or completion tokens never cost less |
| OpenAIProvider.CostAdditive | llm_abstraction/providers/openai.py:235-238 | the cost of summed usages is the sum of their costs |
| OpenAIProvider.CostIgnoresOtherCounts | llm_abstraction/providers/openai.py:235-236 | only prompt and completion tokens are priced. Cached and reasoning tokens are not |
| OpenAIProvider.MessagesValue | llm_abstraction/providers/openai.py:78-81 | the messages are sent in order, each reduced to its role and content |
| OpenAIProvider.StopValue | llm_abstraction/providers/openai.py:91-92 | the stop sequences are sent in order |
| OpenAIProvider.BuildChatParams | llm_abstraction/providers/openai.py:72-100 | an unknown model fails with InvalidModel, and only then. Otherwise the result satisfies `ChatParams`: the six base keys are always set, and max_tokens, stop and reasoning_effort only when given. The extra parameters are merged last and win on every key they name. No other key is present |
| OpenAIProvider.OptionalKeys | llm_abstraction/providers/openai.py:76-96 | adding the optional parameters to the six base ones gives exactly the keys of `ChatKeys` |
| OpenAIProvider.OptionalValues | llm_abstraction/providers/openai.py:76-96 | adding the optional parameters keeps the six base values and sets each given optional one |
| OpenAIProvider.ExtraParamsWin | llm_abstraction/providers/openai.py:98-100 | merging the extra parameters, or skipping an empty merge, keeps every built key, lets the extra values win, and adds no other key |
| OpenAIProvider.MergedChatParams | llm_abstraction/providers/openai.py:76-100 | the base parameters with the extra parameters merged over them satisfy `ChatParams` |
| OpenAIProvider.BuildStreamParams | llm_abstraction/providers/openai.py:129-144 | an unknown model fails with InvalidModel. Otherwise exactly model, messages, stream=True and temperature are sent, plus max_tokens when given |
| OpenAIProvider.StreamOmits | llm_abstraction/providers/openai.py:133-144 | a streaming request never sends top_p, the penalties, stop, reasoning_effort or extra parameters |
| OpenAIProvider.ReasoningEffortGate | llm_abstraction/providers/openai.py:94-96 | the effort gate tests for the letter o, not for a reasoning model. gpt-4o gets the effort but is not a reasoning model; gpt-5 is one but does not get it |
| OpenAIProvider.NormalizeResponse | llm_abstraction/providers/openai.py:159-197 | normalisation fails with the provider's API error exactly when there are no choices, or when usage or one of its detail objects is present but null |
| OpenAIProvider.NormalizeDefaults | llm_abstraction/providers/openai.py:170-183 | each of the five counters is the response's, or 0 when it or the detail object holding it is missing; the cache-creation and cache-read counters are 0. A response without usage reports 0 for all counters |
| OpenAIProvider.NormalizeContentAndCost | llm_abstraction/providers/openai.py:185-197 | the response keeps the first choice's content (null read as "") and finish reason, the id, model and creation timestamp, tags provider "openai", and prices the usage on the response's model, so an unknown model costs 0 |
| OpenAIProvider.NullDetailsAbort | llm_abstraction/providers/openai.py:177-179 | a response with a choice, full counters and null `prompt_tokens_details` fails as written and succeeds null-safe |
| OpenAIProvider.NormalizeResponseNullSafe | llm_abstraction/providers/openai.py:169-183 | with null read as missing, normalisation fails only when there are no choices |
| OpenAIProvider.NullSafeAgrees | llm_abstraction/providers/openai.py:159-197 | the null-safe normalisation gives the same response wherever the original succeeds |
| OpenAIProvider.NullSafeDefaults | llm_abstraction/providers/openai.py:170-186 | with null read as missing, a null usage reports zero for every token counter and zero cost |
| OpenAIProvider.NullDetailsReadAsAbsent | llm_abstraction/providers/openai.py:177-182 | with null read as missing, a null prompt or completion detail object gives the same response as a missing one, so cached or reasoning tokens report 0 |

## Left out

- The routing engine, the CLI, the chat convenience wrappers and the other providers are not part of this model.
- The network call, the API key and the client object are not modelled. Neither are iteration over the stream and `_normalize_stream_chunk`.
- The base class's `validate_model` is not part of this model. A model counts as valid when it is a key of the provider's model table.
- Exception messages are not modelled. Errors are the two constructors of `ProviderError`.
- Any exception inside the completion call is reported as the provider's API error. `NormalizeResponse` returns that error directly.
- `created_at` keeps the raw Unix timestamp: `datetime.fromtimestamp` and the local time zone are not modelled.
- The `raw_response` field of the response is not modelled; `latency_ms` is kept and normalisation leaves it unset, as the original does.
- Floats are modelled as `real`, so IEEE rounding in the cost computation is not captured.
- `Text.Lower` and `Text.IsDigit` cover ASCII only; Python's Unicode case mapping and digit classes are not modelled.
- The model catalog is modelled as typed nested maps. The table holds only prices. Catalog or table entries that are not dictionaries are not modelled.
- Models.RoundTrip: besides the documented format, it requires the mime type and data to contain no marker and the text to be stripped. Content that breaks these can parse differently.
- OpenAIProvider.BuildStreamParams: the streaming completion is a generator, so the original raises the invalid-model error only once the stream is first iterated, not when the method is called; the model returns it at once and does not capture that timing.
- OpenAIProvider.NormalizeResponse: a `usage` that is neither a dictionary nor null, or counters that are not integers, are not modelled.
- ChatRequest fields such as `stream` and the `name` and `cache_control` of messages are carried in the records but sent by no modelled operation, as in the original.

## Findings

| source | as written | input that shows it | evidently intended | confidence | as-written member | corrected member |
|---|---|---|---|---|---|---|
| llm_abstraction/providers/openai.py:170-182 | `.get(key, {})` returns the default only when the key is missing. A `usage`, `prompt_tokens_details` or `completion_tokens_details` that is present but null makes the next lookup fail, and the completion is reported as a provider API error | a response with one choice, usage counters 5/2/7 and `prompt_tokens_details` null (`ResponseWithNullDetails`) | a null detail object reads like a missing one: cached and reasoning tokens default to 0 and the response is returned | not executed; medium | OpenAIProvider.NullDetailsAbort | OpenAIProvider.NormalizeResponseNullSafe |
