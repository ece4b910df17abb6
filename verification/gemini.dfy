/**
 * The Gemini provider adapter: the models it offers, the model name it
 * routes to, the thinking configuration it picks for that name and the
 * request it hands to `generateContentStream`. The SDK call itself is
 * not modelled; `GenerateRequest` is the argument it would receive.
 */
module Gemini {
  import opened Wrappers
  import opened JsString
  import opened Config
  import Prompt

  /** The models the settings dialog offers. */
  const GeminiModels: seq<string> := [
    "gemini-3-pro-preview",
    "gemini-3-flash-preview",
    "gemini-2.5-pro",
    "gemini-2.5-flash",
    "gemini-2.5-flash-lite"
  ]

  const DefaultModel: string := "gemini-2.5-flash"

  /** `config.model ?? "gemini-2.5-flash"`: any present model wins, even the empty one. */
  function ModelName(model: Option<string>): (name: string)
    ensures model.Some? ==> name == model.value
  {
    model.GetOr(DefaultModel)
  }

  /** The default is used for a missing model, and for no present model other than the default's own name. */
  lemma ModelNameIsNullish(model: Option<string>)
    ensures ModelName(model) == DefaultModel <==> model.None? || model == Some(DefaultModel)
    ensures ModelName(Some("")) == ""
  {
  }

  datatype ThinkingLevel = Minimal | Low

  /** `{ thinkingLevel }` or `{ thinkingBudget }`: the absent key is `None`. */
  datatype ThinkingConfig = ThinkingConfig(thinkingLevel: Option<ThinkingLevel>, thinkingBudget: Option<nat>)

  /**
   * Gemini 3 models get a thinking level (MINIMAL for flash models, LOW
   * otherwise); every other model a thinking budget (0 for flash models,
   * 128 otherwise). Exactly one of the two is ever set.
   */
  function ThinkingFor(modelName: string): (t: ThinkingConfig)
    ensures t.thinkingLevel.Some? != t.thinkingBudget.Some?
    ensures t.thinkingLevel.Some? <==> Includes(modelName, "gemini-3")
    ensures t.thinkingLevel.Some? ==> (t.thinkingLevel.value == Minimal <==> Includes(modelName, "flash"))
    ensures t.thinkingBudget.Some? ==> t.thinkingBudget.value == (if Includes(modelName, "flash") then 0 else 128)
  {
    if Includes(modelName, "gemini-3") then
      ThinkingConfig(Some(if Includes(modelName, "flash") then Minimal else Low), None)
    else
      ThinkingConfig(None, Some(if Includes(modelName, "flash") then 0 else 128))
  }

  /** Gemini 3 Pro thinks at level LOW. */
  lemma ProPreviewThinking()
    ensures ThinkingFor("gemini-3-pro-preview") == ThinkingConfig(Some(Low), None)
  {
    assert OccursAt("gemini-3-pro-preview", "gemini-3", 0);
    MissingCharExcludes("gemini-3-pro-preview", "flash", 'f');
  }

  /** Gemini 3 Flash thinks at level MINIMAL. */
  lemma FlashPreviewThinking()
    ensures ThinkingFor("gemini-3-flash-preview") == ThinkingConfig(Some(Minimal), None)
  {
    assert OccursAt("gemini-3-flash-preview", "gemini-3", 0);
    assert OccursAt("gemini-3-flash-preview", "flash", 9);
  }

  /** Gemini 2.5 Pro gets a thinking budget of 128. */
  lemma ProThinking()
    ensures ThinkingFor("gemini-2.5-pro") == ThinkingConfig(None, Some(128))
  {
    MissingCharExcludes("gemini-2.5-pro", "gemini-3", '3');
    MissingCharExcludes("gemini-2.5-pro", "flash", 'f');
  }

  /** Gemini 2.5 Flash and Flash-Lite get a thinking budget of 0. */
  lemma FlashThinking()
    ensures ThinkingFor("gemini-2.5-flash") == ThinkingConfig(None, Some(0))
    ensures ThinkingFor("gemini-2.5-flash-lite") == ThinkingConfig(None, Some(0))
  {
    MissingCharExcludes("gemini-2.5-flash", "gemini-3", '3');
    assert OccursAt("gemini-2.5-flash", "flash", 11);
    MissingCharExcludes("gemini-2.5-flash-lite", "gemini-3", '3');
    assert OccursAt("gemini-2.5-flash-lite", "flash", 11);
  }

  /**
   * The empty model name, which the default settings resolve to, is neither
   * a Gemini 3 nor a flash model: it gets a thinking budget of 128.
   */
  lemma EmptyModelThinking()
    ensures ThinkingFor(ModelName(Some(""))) == ThinkingConfig(None, Some(128))
  {
    MissingCharExcludes("", "gemini-3", 'g');
    MissingCharExcludes("", "flash", 'f');
  }

  /** The thinking configuration of each offered model, in list order. */
  lemma OfferedModelsThinking()
    ensures ThinkingFor(GeminiModels[0]) == ThinkingConfig(Some(Low), None)
    ensures ThinkingFor(GeminiModels[1]) == ThinkingConfig(Some(Minimal), None)
    ensures ThinkingFor(GeminiModels[2]) == ThinkingConfig(None, Some(128))
    ensures ThinkingFor(GeminiModels[3]) == ThinkingConfig(None, Some(0))
    ensures ThinkingFor(GeminiModels[4]) == ThinkingConfig(None, Some(0))
  {
    ProPreviewThinking();
    FlashPreviewThinking();
    ProThinking();
    FlashThinking();
  }

  /** The argument `generateContentStream` receives, with the credential of the client it is called on. */
  datatype GenerateRequest = GenerateRequest(
    apiKey: string,
    model: string,
    systemInstruction: string,
    thinkingConfig: ThinkingConfig,
    contents: string)

  /**
   * The one request sent per call: routed to the resolved model name, with
   * the fixed system instruction whatever the inputs, and contents from
   * which the prompt is recovered verbatim given the state.
   */
  function RequestFor(config: SculptConfig, state: string, prompt: string): (r: GenerateRequest)
    ensures r.apiKey == config.apiKey
    ensures r.model == ModelName(config.model)
    ensures r.systemInstruction == Prompt.SystemInstruction
    ensures r.thinkingConfig == ThinkingFor(r.model)
    ensures r.thinkingConfig.thinkingLevel.Some? != r.thinkingConfig.thinkingBudget.Some?
    ensures Prompt.InstructionIn(r.contents, state) == Some(prompt)
    ensures r.contents[..|Prompt.StateLabel|] == Prompt.StateLabel
    ensures r.contents[|r.contents| - |prompt|..] == prompt
  {
    var modelName := ModelName(config.model);
    Prompt.InstructionRoundTrip(state, prompt);
    Prompt.UserContentLayout(state, prompt);
    GenerateRequest(config.apiKey, modelName, Prompt.SystemInstruction,
                    ThinkingFor(modelName), Prompt.UserContent(state, prompt))
  }
}
