# vibe-sculptor: the send step, in Dafny

vibe-sculptor lets a user rewrite a text buffer (the *state*) by typing an
instruction (the *prompt*). Pressing Send passes both to a generative-text
provider. The reply streams back and replaces the state buffer chunk by chunk.
This project models that send step, the Gemini provider adapter next to it,
and the settings dialog's record update. It proves what each of them
guarantees.

Modules, one per source unit:

- `App` (`app.dfy`, `src/App.tsx`) is the core. The class `Sculptor` has
  the fields `state`, `prompt`, `isGenerating` and `config`. `Send` is
  `handleSend`, the two-state machine ready ⇄ generating.
  - The provider's stream is a finite `seq<Option<string>>` of text deltas.
    A missing delta reads as `""`.
  - `failAfter: Option<nat>` models a transport failure. `Some(k)` means the
    first `k` chunks arrive (or all of them, if there are fewer) and then
    the transport throws. `None` means the stream ends normally.
  - Two ghost fields record every value written to `state` and to
    `isGenerating`. This lets the contracts state the per-chunk overwrite
    and the busy-flag transitions.
  - `Send` is proved against the functions `StateWrites` and `FinalState`.
    The lemmas about those functions state the source's promises: each
    write overwrites rather than appends, and each write extends the
    previous one. Partial output survives a failure, which appends a
    fixed suffix. A stream that ends with no chunks leaves the state
    untouched.
- `Gemini` (`gemini.dfy`, `src/lib/gemini.ts`) holds:
  - the list of offered models;
  - model-name resolution, which applies the default only for a missing
    model;
  - the thinking-configuration decision table;
  - the request given to `generateContentStream`.
- `Prompt` (`prompt.dfy`) holds the system instruction and the
  `Current State:` / `Instruction:` template. `src/App.tsx` and
  `src/lib/gemini.ts` both use this template, so it is defined once here.
- `SettingsDialog` (`settings_dialog.dfy`,
  `src/components/SettingsDialog.tsx`) holds `update`, which is
  `{ ...config, [key]: value }`. It also holds the dialog's two change
  events and proves that no sequence of them changes the provider.
- `JsString` (`js_string.dfy`) holds `trim`, `includes` and `x || ""`, as
  ECMAScript defines them.
- `Config` (`config.dfy`) is the settings record and its default.
  `Wrappers` (`wrappers.dfy`) is `Option`.

Three facts about the source shape the model:

- The model default at `src/lib/gemini.ts:14` comes from `??`, so only a
  missing (`null`/`undefined`) model is replaced by `gemini-2.5-flash`. An
  empty model name is sent as it is (`Gemini.ModelNameIsNullish`). The
  app's default settings hold an empty model, which therefore reaches the
  provider as `""` (`Gemini.EmptyModelThinking`).
- The `Current State:` and `Instruction:` labels are plain text and nothing
  is escaped, so two different (state, instruction) pairs can give the same
  message (`Prompt.LabelsAreNotEscaped`). The instruction can be recovered
  only when the state is known (`Prompt.InstructionRoundTrip`).
- `src/lib/gemini.ts` imports a `Config` type that `src/App.tsx` does not
  export. The model uses one settings record, `Config.SculptConfig`. Its
  `model` field is an `Option<string>`, so the nullish case of `gemini.ts`
  can be expressed. The app's default stores `Some("")`.

## Model

| member | source | states |
|---|---|---|
| `JsString.TrimStartCuts` | src/App.tsx:31 | The leading part `trim` removes is all whitespace. What remains is a suffix of the input that does not start with whitespace. |
| `JsString.TrimEndCuts` | src/App.tsx:31 | The trailing part `trim` removes is all whitespace. What remains is a prefix of the input that does not end with whitespace. |
| `JsString.TrimCutsWhitespace` | src/App.tsx:31 | `prompt.trim()` is a contiguous slice of the prompt. Only whitespace lies before and after it, and it neither starts nor ends with whitespace. |
| `JsString.TrimEmptyIff` | src/App.tsx:31 | `prompt.trim()` is empty exactly when every character of the prompt is whitespace. |
| `JsString.MissingCharExcludes` | src/lib/gemini.ts:21-23 | `includes` is false when the searched-for text contains a character the name lacks. |
| `JsString.Trim` | src/App.tsx:31 | `String.prototype.trim`: strip leading, then trailing, whitespace and line terminators. Specified by `TrimCutsWhitespace` (a slice with only whitespace around it and none at its ends) and `TrimEmptyIff`. |
| `JsString.Includes` | src/lib/gemini.ts:21-23 | `String.prototype.includes`: the text occurs at some position of the name. Used by `ThinkingFor`, decided on the offered names through `MissingCharExcludes` and explicit positions. |
| `JsString.OrEmpty` | src/App.tsx:68 | `x \|\| ""` gives the string when it is present and `""` when it is missing. |
| `Prompt.UserContentLayout` | src/lib/gemini.ts:25 | The user message starts with `Current State:\n`, holds the state verbatim right after that label and ends with the instruction verbatim. |
| `Prompt.UserContent` | src/lib/gemini.ts:25 | The user message built from state and instruction, as src/App.tsx:57 builds it too. Specified by `UserContentLayout`; its inverse given the state is `InstructionIn` (`InstructionRoundTrip`). |
| `Prompt.InstructionIn` | src/App.tsx:57 | Any instruction read back out of a message, given its state, rebuilds exactly that message. |
| `Prompt.InstructionRoundTrip` | src/App.tsx:57 | Given the state it embeds, a user message gives back its instruction unchanged. |
| `Prompt.LabelsAreNotEscaped` | src/lib/gemini.ts:25 | The template escapes nothing: a state that contains the instruction label gives the same message as a different (state, instruction) pair. |
| `Gemini.ModelName` | src/lib/gemini.ts:14 | A model that is present is used as given. |
| `Gemini.ModelNameIsNullish` | src/lib/gemini.ts:14 | The resolved name is `gemini-2.5-flash` exactly when the model is missing or is that name. The empty model name stays empty. |
| `Gemini.ThinkingFor` | src/lib/gemini.ts:21-23 | For every model name: exactly one of thinking level and thinking budget is set. A level is set exactly when the name includes `gemini-3`, and it is MINIMAL exactly when the name includes `flash` (LOW otherwise). A budget is 0 when the name includes `flash` and 128 otherwise. |
| `Gemini.ProPreviewThinking` | src/lib/gemini.ts:21-22 | `gemini-3-pro-preview` gets thinking level LOW and no budget. |
| `Gemini.FlashPreviewThinking` | src/lib/gemini.ts:21-22 | `gemini-3-flash-preview` gets thinking level MINIMAL and no budget. |
| `Gemini.ProThinking` | src/lib/gemini.ts:23 | `gemini-2.5-pro` gets thinking budget 128 and no level. |
| `Gemini.FlashThinking` | src/lib/gemini.ts:23 | `gemini-2.5-flash` and `gemini-2.5-flash-lite` get thinking budget 0 and no level. |
| `Gemini.EmptyModelThinking` | src/lib/gemini.ts:14-23 | The empty model name of the default settings is used as given and gets thinking budget 128 and no level. |
| `Gemini.OfferedModelsThinking` | src/lib/gemini.ts:4-10 | The five offered models, in list order, get LOW, MINIMAL, budget 128, budget 0 and budget 0. |
| `Gemini.RequestFor` | src/lib/gemini.ts:12-25 | The request uses the config's API key and the resolved model name. Its system instruction is the same fixed string whatever the inputs, and its thinking configuration is `ThinkingFor` of the resolved model name, so exactly one thinking setting is set. Its contents start with `Current State:\n`, end with the prompt verbatim and give the prompt back given the state. |
| `SettingsDialog.Field` | src/components/SettingsDialog.tsx:13-14 | Reading field `key` of the config gives a value of that key. |
| `SettingsDialog.Update` | src/components/SettingsDialog.tsx:13-14 | After `update(key, value)`, field `key` reads `value` and every other field reads as before. |
| `SettingsDialog.UpdateIdempotent` | src/components/SettingsDialog.tsx:13-14 | Applying the same update twice gives the same config as applying it once. |
| `SettingsDialog.UpdateWithOwnField` | src/components/SettingsDialog.tsx:13-14 | Writing back the value a field already holds leaves the config unchanged. |
| `SettingsDialog.UpdatesCommute` | src/components/SettingsDialog.tsx:13-14 | Updates of two different fields give the same config in either order. |
| `SettingsDialog.OnChange` | src/components/SettingsDialog.tsx:57-77 | A model selection sets only `model` to the option, and an API-key edit sets only `apiKey`. The provider never changes. |
| `SettingsDialog.ApplyChanges` | src/components/SettingsDialog.tsx:57-77 | The settings after a run of dialog changes, each applied through `update`. Specified by `DialogKeepsProvider`, `DialogModelIsOffered` and `DialogKeepsOfferedModel`. |
| `SettingsDialog.DialogKeepsProvider` | src/components/SettingsDialog.tsx:57-77 | No sequence of dialog changes alters the provider. |
| `SettingsDialog.DialogModelIsOffered` | src/components/SettingsDialog.tsx:59-63 | After changes made through the rendered options, the model is either the one held before or one of `GeminiModels`. |
| `SettingsDialog.DialogKeepsOfferedModel` | src/components/SettingsDialog.tsx:59-63 | Once the model is one of `GeminiModels`, changes made through the rendered options keep it so. |
| `App.ChatRequestFor` | src/App.tsx:44-60 | The streaming chat request a send makes. Specified by `ChatRequestCarriesInstruction`. |
| `App.Accepts` | src/App.tsx:31 | The guard of a send: the trimmed prompt is non-empty and no generation is running. Specified in both directions by `AcceptsIff`. |
| `App.Accumulate` | src/App.tsx:64-69 | The text accumulated from a run of deltas, a missing delta counted as `""`. Specified by `AccumulateAppend` and `SnapshotAt`. |
| `App.StateWrites` | src/App.tsx:64-76 | The values a send writes to the state, in order: one per chunk received, then the error annotation on failure. Specified by `SnapshotAt`, `WritesGrow` and `FinalStateCases`; `Sculptor.Stream` is proved to write exactly these. |
| `App.FinalState` | src/App.tsx:64-76 | The state after a send: the last write, or the prior state when there is none. Specified by `FinalStateCases`; `Sculptor.Send` is proved to end in it. |
| `App.ChatRequestCarriesInstruction` | src/App.tsx:35-60 | A send's request streams through the configured provider, model and API key. It carries the fixed system message first. Given the state it embeds, its user message gives back the instruction verbatim. |
| `App.AcceptsIff` | src/App.tsx:31-33 | A send is accepted exactly when the engine is idle and the prompt has a character that is not whitespace. |
| `App.Snapshots` | src/App.tsx:64-73 | Each applied chunk writes the state exactly once. |
| `App.Received` | src/App.tsx:67 | The number of chunks applied never exceeds the stream, and every chunk is applied when the transport does not fail. |
| `App.AccumulateAppend` | src/App.tsx:69 | Accumulating two runs of deltas one after the other concatenates their texts. |
| `App.SnapshotAt` | src/App.tsx:64-72 | After the (k+1)-th chunk the state equals the concatenation of the first k+1 deltas, with a missing delta counted as `""`. The prior state plays no part. |
| `App.SnapshotsGrow` | src/App.tsx:69-72 | Every value written to the state while streaming is a prefix of every later one. |
| `App.WritesGrow` | src/App.tsx:69-76 | Each value a send writes to the state extends every earlier one from the same send, the error annotation included. |
| `App.FinalStateCases` | src/App.tsx:64-76 | A stream that ends with no chunks writes nothing and leaves the prior state. A normal end leaves exactly the concatenated deltas. A failure after k chunks leaves the first k deltas, or the prior state when k = 0, followed by `\n\n// Error: Failed to connect to provider.` |
| `App.HelloWorldStream` | src/App.tsx:64-73 | The chunks `Hel`, `lo, `, `world` write `Hel`, `Hello, `, `Hello, world`, in that order. |
| `App.PartialThenFailure` | src/App.tsx:74-76 | One chunk `partial` followed by a transport failure leaves `partial` plus the error suffix. |
| `App.Sculptor.constructor` | src/App.tsx:13-21 | The app starts with state `// state_0\n// sculpt the vibe here`, an empty prompt, the busy flag down and the default settings (`openai`, empty model, empty key). |
| `App.Sculptor.EditState` | src/App.tsx:101 | The state editor's change sets the state to the new value, or to `""` when it is undefined. Nothing else changes. |
| `App.Sculptor.EditPrompt` | src/App.tsx:125 | The instruction editor's change sets the prompt to the new value, or to `""` when it is undefined. Nothing else changes. |
| `App.Sculptor.ChangeSettings` | src/App.tsx:84 | A settings-dialog change replaces the settings with the dialog's update. The provider and both buffers stay as they were. |
| `App.Sculptor.Stream` | src/App.tsx:62-76 | Consuming the stream makes the state the function `FinalState` of the prior state and the stream. The values written are exactly `StateWrites`. |
| `App.Sculptor.Send` | src/App.tsx:30-80 | A blank prompt or a busy engine leaves state, prompt, flag and history unchanged, and nothing is sent. Otherwise: the request carries the untrimmed prompt and the state held before the call; the prompt becomes `""`; the state ends as `FinalState`, after exactly the `StateWrites`; the busy flag goes up once and ends down on every path. |

## Left out

- The network and the SDKs: constructing `TokenJS` and `GoogleGenAI`, `chat.completions.create` and `generateContentStream`. A provider is only the request it would receive (`App.ChatRequest`, `Gemini.GenerateRequest`), the deltas it yields and the point where it throws.
- A throw from `new TokenJS(...)` at src/App.tsx:35 is not modelled. That call sits before the `try`, so such a throw would leave the prompt and the flag untouched.
- Async scheduling is not modelled. The `for await` loop is a sequential loop. Interleaving with other UI events during a send is not modelled.
- The guard at src/App.tsx:31 reads React's captured state, which can be stale. It is modelled as an atomic check-and-set on a plain field. In this sequential model the busy flag is always down between calls. So the busy-rejection branch of `Send` is stated and proved, but no call sequence reaches it.
- The request is built from the state field as it is when `Send` is called. React's closure capture of `state` is not modelled.
- Throughput, elapsed-time and token-count metrics are not modelled. src/App.tsx computes no metrics.
- `localStorage` persistence through `useLocalStorage` is not modelled. The settings are a plain field of `Sculptor`, so the store's set-then-get round trip is not modelled.
- `console.error` logging is not modelled.
- The global keydown listener, opening and closing the dialog, Monaco editor options, layout and theme markup are not modelled.
- `src/components/Nav.tsx` is not part of this model: it is presentational, and the app passes it no-op handlers.
- The disabled provider input that displays `gemini` is not modelled. Only its effect is kept: the dialog never updates the provider.
- JavaScript strings are UTF-16. The model uses Unicode scalar values. This does not matter for `trim`, because every whitespace character it removes lies in the Basic Multilingual Plane.
