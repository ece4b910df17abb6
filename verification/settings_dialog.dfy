/**
 * The settings dialog's `update` helper, a one-field record update on the
 * settings, and the two changes the dialog wires it to: picking a model
 * from the offered list and typing an API key. The provider field is
 * shown disabled and is never updated.
 */
module SettingsDialog {
  import opened Wrappers
  import opened Config
  import Gemini

  /** `keyof Config`. */
  datatype Key = Provider | Model | ApiKey

  /** A key together with a value of that key's type: the arguments `update(key, value)` takes. */
  datatype Assignment = SetProvider(provider: string) | SetModel(model: Option<string>) | SetApiKey(apiKey: string) {
    function Target(): Key {
      match this
      case SetProvider(_) => Provider
      case SetModel(_) => Model
      case SetApiKey(_) => ApiKey
    }
  }

  /** `config[key]`, as the assignment that would write the value it holds. */
  function Field(config: SculptConfig, key: Key): (a: Assignment)
    ensures a.Target() == key
  {
    match key
    case Provider => SetProvider(config.provider)
    case Model => SetModel(config.model)
    case ApiKey => SetApiKey(config.apiKey)
  }

  /**
   * `{ ...config, [key]: value }`: the assigned field reads back the new
   * value and every other field reads as before.
   */
  function Update(config: SculptConfig, a: Assignment): (r: SculptConfig)
    ensures Field(r, a.Target()) == a
    ensures forall k :: k != a.Target() ==> Field(r, k) == Field(config, k)
  {
    match a
    case SetProvider(p) => config.(provider := p)
    case SetModel(m) => config.(model := m)
    case SetApiKey(k) => config.(apiKey := k)
  }

  /** Applying the same update twice is the same as applying it once. */
  lemma UpdateIdempotent(config: SculptConfig, a: Assignment)
    ensures Update(Update(config, a), a) == Update(config, a)
  {
  }

  /** Writing back the value a field already holds changes nothing. */
  lemma UpdateWithOwnField(config: SculptConfig, key: Key)
    ensures Update(config, Field(config, key)) == config
  {
  }

  /** Updates of different fields commute. */
  lemma UpdatesCommute(config: SculptConfig, a: Assignment, b: Assignment)
    requires a.Target() != b.Target()
    ensures Update(Update(config, a), b) == Update(Update(config, b), a)
  {
  }

  /** The model options the dialog renders, one per offered Gemini model. */
  const ModelOptions: seq<string> := Gemini.GeminiModels

  /** A change event of one of the dialog's two editable controls. */
  datatype Change = ModelSelected(option: string) | ApiKeyEdited(text: string)

  /** The model select's `onChange` reports one of the rendered options. */
  predicate FromOptions(e: Change) {
    e.ModelSelected? ==> e.option in ModelOptions
  }

  /** `update("model", value)` or `update("apiKey", value)`: never the provider. */
  function OnChange(config: SculptConfig, e: Change): (r: SculptConfig)
    ensures r.provider == config.provider
    ensures e.ModelSelected? ==> r == config.(model := Some(e.option))
    ensures e.ApiKeyEdited? ==> r == config.(apiKey := e.text)
  {
    match e
    case ModelSelected(option) => Update(config, SetModel(Some(option)))
    case ApiKeyEdited(text) => Update(config, SetApiKey(text))
  }

  /** The settings after a session of changes in the dialog, in order. */
  function ApplyChanges(config: SculptConfig, changes: seq<Change>): SculptConfig
    decreases |changes|
  {
    if changes == [] then config
    else ApplyChanges(OnChange(config, changes[0]), changes[1..])
  }

  /** No sequence of dialog changes alters the provider. */
  lemma {:induction false} DialogKeepsProvider(config: SculptConfig, changes: seq<Change>)
    ensures ApplyChanges(config, changes).provider == config.provider
    decreases |changes|
  {
    if changes != [] {
      DialogKeepsProvider(OnChange(config, changes[0]), changes[1..]);
    }
  }

  /**
   * After changes made through the rendered options, the model is either
   * the one held before or one of the offered Gemini models.
   */
  lemma {:induction false} DialogModelIsOffered(config: SculptConfig, changes: seq<Change>)
    requires forall i :: 0 <= i < |changes| ==> FromOptions(changes[i])
    ensures var m := ApplyChanges(config, changes).model;
            m == config.model || (m.Some? && m.value in Gemini.GeminiModels)
    decreases |changes|
  {
    if changes != [] {
      var next := OnChange(config, changes[0]);
      assert FromOptions(changes[0]);
      DialogModelIsOffered(next, changes[1..]);
      if next.model != config.model {
        assert next.model.value in Gemini.GeminiModels;
        DialogKeepsOfferedModel(next, changes[1..]);
      }
    }
  }

  /** Once the model is an offered one, changes through the rendered options keep it offered. */
  lemma {:induction false} DialogKeepsOfferedModel(config: SculptConfig, changes: seq<Change>)
    requires config.model.Some? && config.model.value in Gemini.GeminiModels
    requires forall i :: 0 <= i < |changes| ==> FromOptions(changes[i])
    ensures var m := ApplyChanges(config, changes).model;
            m.Some? && m.value in Gemini.GeminiModels
    decreases |changes|
  {
    if changes != [] {
      assert FromOptions(changes[0]);
      DialogKeepsOfferedModel(OnChange(config, changes[0]), changes[1..]);
    }
  }
}
