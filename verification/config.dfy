/** The provider settings the app keeps in local storage. */
module Config {
  import opened Wrappers

  /**
   * `{ provider, model, apiKey }`. The model is optional: a stored record
   * may lack it or hold `null`, and the Gemini adapter defaults it with `??`.
   */
  datatype SculptConfig = SculptConfig(provider: string, model: Option<string>, apiKey: string)

  /** The settings used when nothing is stored yet. */
  const DefaultConfig: SculptConfig := SculptConfig("openai", Some(""), "")
}
