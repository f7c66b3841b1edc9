/**
 * Detection of reasoning models, which only accept temperature 1.0: first
 * from an optional model catalog, then from per-provider name patterns
 * applied to the lowercased model name.
 */
module ReasoningDetector {
  import opened Wrappers
  import opened Text
  import opened Values

  /** provider name -> model name -> metadata key -> metadata value */
  type Catalog = map<string, map<string, map<string, Value>>>

  /**
   * The catalog says the model reasons: a non-empty catalog is given and the
   * pair's `reasoning_model` entry is truthy (a missing provider, model or
   * key reads as an empty entry, and a missing flag as false).
   */
  predicate CatalogFlag(provider: string, model: string, catalog: Option<Catalog>)
  {
    && catalog.Some?
    && catalog.value != map[]
    && var providerModels := if provider in catalog.value then catalog.value[provider] else map[];
       var modelInfo := if model in providerModels then providerModels[model] else map[];
       Truthy(Get(modelInfo, "reasoning_model", VBool(false)))
  }

  /** OpenAI-style names: o1, o3, gpt-5, any "reasoner"/"reasoning", and o followed by a digit. */
  predicate OSeriesName(lowered: string)
  {
    || StartsWith(lowered, "o1")
    || StartsWith(lowered, "o3")
    || StartsWith(lowered, "gpt-5")
    || Contains(lowered, "reasoner")
    || Contains(lowered, "reasoning")
    || (StartsWith(lowered, "o") && |lowered| > 1 && IsDigit(lowered[1]))
  }

  /** Grok names: any "reasoning", exactly grok-4, and the grok-3-mini and grok-code lines. */
  predicate GrokName(lowered: string)
  {
    || Contains(lowered, "reasoning")
    || lowered == "grok-4"
    || StartsWith(lowered, "grok-3-mini")
    || StartsWith(lowered, "grok-code")
  }

  /** DeepSeek names: any "reasoner" or "reasoning". */
  predicate DeepSeekName(lowered: string)
  {
    Contains(lowered, "reasoner") || Contains(lowered, "reasoning")
  }

  /** Groq names: any "reasoning" and the open-weight gpt-oss models. */
  predicate GroqName(lowered: string)
  {
    Contains(lowered, "reasoning") || Contains(lowered, "gpt-oss")
  }

  /** The providers whose names follow the OpenAI o-series conventions. */
  predicate OSeriesProvider(provider: string)
  {
    provider == "openai" || provider == "deepseek" || provider == "openrouter"
  }

  /**
   * Whether `model` of `provider` is a reasoning model. The checks run in
   * the order of the original: catalog, empty name, then the provider
   * blocks one after the other, each of which can only answer true.
   */
  function IsReasoningModel(provider: string, model: string, catalog: Option<Catalog>): (r: bool)
    ensures r <==> CatalogFlag(provider, model, catalog) || (model != "" && ProviderRule(provider, Lower(model)))
  {
    if CatalogFlag(provider, model, catalog) then true
    else if model == "" then false
    else
      var lowered := Lower(model);
      if OSeriesProvider(provider) && OSeriesName(lowered) then true
      else if provider == "grok" && GrokName(lowered) then true
      else if provider == "deepseek" && DeepSeekName(lowered) then true
      else if provider == "groq" && GroqName(lowered) then true
      else false
  }

  /** The name rule that applies to each provider, one provider at a time. */
  predicate ProviderRule(provider: string, lowered: string)
  {
    if OSeriesProvider(provider) then OSeriesName(lowered)
    else if provider == "grok" then GrokName(lowered)
    else if provider == "groq" then GroqName(lowered)
    else false
  }

  /** A truthy catalog flag makes the model a reasoning model whatever its name. */
  lemma CatalogFlagDecides(provider: string, model: string, catalog: Catalog)
    requires catalog != map[] && provider in catalog && model in catalog[provider]
    requires "reasoning_model" in catalog[provider][model]
    requires Truthy(catalog[provider][model]["reasoning_model"])
    ensures IsReasoningModel(provider, model, Some(catalog))
  {
  }

  /**
   * The catalog can only add reasoning models: without a truthy flag the
   * answer is the one the name patterns give with no catalog at all.
   */
  lemma CatalogOnlyAdds(provider: string, model: string, catalog: Option<Catalog>)
    ensures IsReasoningModel(provider, model, catalog)
            == (CatalogFlag(provider, model, catalog) || IsReasoningModel(provider, model, None))
  {
  }

  /** An empty model name is a reasoning model only through the catalog. */
  lemma EmptyNameNeedsCatalog(provider: string, catalog: Option<Catalog>)
    ensures IsReasoningModel(provider, "", catalog) <==> CatalogFlag(provider, "", catalog)
  {
  }

  /** Lowercasing twice is lowercasing once. */
  lemma LowerIdempotent(s: string)
    ensures Lower(Lower(s)) == Lower(s)
  {
  }

  /** The name patterns ignore letter case: names equal up to case classify alike. */
  lemma CaseInsensitive(provider: string, model1: string, model2: string)
    requires Lower(model1) == Lower(model2)
    ensures IsReasoningModel(provider, model1, None) == IsReasoningModel(provider, model2, None)
  {
    assert |model1| == |Lower(model1)| == |model2|;
  }

  /** In particular a name and its lowercase form classify alike. */
  lemma LowercaseClassifiesAlike(provider: string, model: string)
    ensures IsReasoningModel(provider, Lower(model), None) == IsReasoningModel(provider, model, None)
  {
    LowerIdempotent(model);
    CaseInsensitive(provider, Lower(model), model);
  }

  /** For openai, deepseek and openrouter, exactly the o-series patterns hold. */
  lemma OSeriesProviders(provider: string, model: string)
    requires OSeriesProvider(provider)
    ensures IsReasoningModel(provider, model, None) <==> model != "" && OSeriesName(Lower(model))
  {
  }

  /** The DeepSeek-only block never changes the answer: the o-series block already covers it. */
  lemma DeepSeekBlockSubsumed(lowered: string)
    ensures DeepSeekName(lowered) ==> OSeriesName(lowered)
  {
  }

  /** For grok, exactly the grok patterns hold. */
  lemma GrokProvider(model: string)
    ensures IsReasoningModel("grok", model, None) <==> model != "" && GrokName(Lower(model))
  {
  }

  /** For groq, exactly "reasoning" and "gpt-oss" names are reasoning models. */
  lemma GroqProvider(model: string)
    ensures IsReasoningModel("groq", model, None) <==> model != "" && GroqName(Lower(model))
  {
  }

  /** Any other provider has reasoning models only through the catalog. */
  lemma UnlistedProvider(provider: string, model: string, catalog: Option<Catalog>)
    requires !OSeriesProvider(provider) && provider != "grok" && provider != "groq"
    ensures IsReasoningModel(provider, model, catalog) <==> CatalogFlag(provider, model, catalog)
  {
  }

  /** The examples the detector documents, and an upper-case spelling. */
  lemma DocumentedExamples()
    ensures IsReasoningModel("openai", "o1", None)
    ensures !IsReasoningModel("openai", "gpt-4o", None)
    ensures IsReasoningModel("deepseek", "deepseek-reasoner", None)
    ensures IsReasoningModel("openai", "O1", None)
    ensures IsReasoningModel("grok", "grok-4", None)
    ensures !IsReasoningModel("anthropic", "claude-reasoning", None)
  {
    assert Lower("o1") == "o1";
    assert Lower("O1") == "o1";
    Gpt4oIsNotReasoning();
    DeepSeekReasonerIsReasoning();
    assert Lower("grok-4") == "grok-4";
  }

  /** gpt-4o matches none of the o-series patterns. */
  lemma Gpt4oIsNotReasoning()
    ensures !IsReasoningModel("openai", "gpt-4o", None)
  {
    var m := "gpt-4o";
    assert Lower(m) == m;
    assert m[..5][4] == '4';
    assert m[..1][0] == 'g' && m[..2][0] == 'g';
    assert !OSeriesName(m);
  }

  /** deepseek-reasoner holds "reasoner". */
  lemma DeepSeekReasonerIsReasoning()
    ensures IsReasoningModel("deepseek", "deepseek-reasoner", None)
  {
    var m := "deepseek-reasoner";
    assert Lower(m) == m;
    assert OccursAt(m, "reasoner", 9);
  }

  const DefaultTemperature: real := 0.7

  /**
   * The temperature to send: 1.0 for reasoning models, whatever was
   * requested; otherwise the requested value when one is given (zero
   * included), else the default.
   */
  function TemperatureForModel(provider: string, model: string, requested: Option<real>,
                               catalog: Option<Catalog>, default: real): (t: real)
    ensures IsReasoningModel(provider, model, catalog) ==> t == 1.0
    ensures !IsReasoningModel(provider, model, catalog) && requested.Some? ==> t == requested.value
    ensures !IsReasoningModel(provider, model, catalog) && requested.None? ==> t == default
  {
    if IsReasoningModel(provider, model, catalog) then 1.0
    else if requested.Some? then requested.value
    else default
  }

  /** For a reasoning model the requested temperature and the default make no difference. */
  lemma ReasoningIgnoresRequest(provider: string, model: string, catalog: Option<Catalog>,
                                requested1: Option<real>, requested2: Option<real>,
                                default1: real, default2: real)
    requires IsReasoningModel(provider, model, catalog)
    ensures TemperatureForModel(provider, model, requested1, catalog, default1)
            == TemperatureForModel(provider, model, requested2, catalog, default2)
  {
  }

  /** Documented example: o1 always runs at 1.0, gpt-4o keeps a requested 0.0. */
  lemma TemperatureExamples()
    ensures TemperatureForModel("openai", "o1", Some(0.2), None, DefaultTemperature) == 1.0
    ensures TemperatureForModel("openai", "gpt-4o", Some(0.0), None, DefaultTemperature) == 0.0
    ensures TemperatureForModel("openai", "gpt-4o", None, None, DefaultTemperature) == 0.7
  {
    DocumentedExamples();
  }
}
