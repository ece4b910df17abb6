/**
 * The sculptor screen: a state buffer, an instruction buffer and a busy
 * flag, and the send step that streams a provider's reply into the state
 * buffer. The provider is abstracted to the finite sequence of text
 * deltas its stream yields and the number of chunks after which its
 * transport throws, if it does.
 */
module App {
  import opened Wrappers
  import opened JsString
  import opened Config
  import Prompt
  import SettingsDialog

  /** The state buffer's content when the app starts. */
  const InitialState: string := "// state_0\n// sculpt the vibe here"

  /** What a failed send appends to the state buffer. */
  const ErrorSuffix: string := "\n\n// Error: Failed to connect to provider."

  datatype Role = System | User

  datatype Message = Message(role: Role, content: string)

  /** The streaming chat-completion request, with the credential of the client it is sent through. */
  datatype ChatRequest = ChatRequest(
    apiKey: string,
    stream: bool,
    provider: string,
    model: Option<string>,
    messages: seq<Message>)

  /** The request one send makes: the configured provider and model, the system message, then the user message. */
  function ChatRequestFor(config: SculptConfig, state: string, instruction: string): ChatRequest
  {
    ChatRequest(config.apiKey, true, config.provider, config.model,
                [Message(System, Prompt.SystemInstruction),
                 Message(User, Prompt.UserContent(state, instruction))])
  }

  /**
   * A send's request is a streaming request through the configured provider
   * and model with the fixed system message first, and its user message
   * gives back the instruction verbatim once the state it embeds is known.
   */
  lemma ChatRequestCarriesInstruction(config: SculptConfig, state: string, instruction: string)
    ensures var r := ChatRequestFor(config, state, instruction);
      && r.stream
      && r.apiKey == config.apiKey && r.provider == config.provider && r.model == config.model
      && |r.messages| == 2
      && r.messages[0] == Message(System, Prompt.SystemInstruction)
      && r.messages[1].role == User
      && Prompt.InstructionIn(r.messages[1].content, state) == Some(instruction)
  {
    Prompt.InstructionRoundTrip(state, instruction);
  }

  /** The send guard: a prompt that trims to nothing, or a send while one is running, is dropped. */
  predicate Accepts(prompt: string, isGenerating: bool) {
    Trim(prompt) != "" && !isGenerating
  }

  /** A rejected prompt is one made only of whitespace (or a call while busy). */
  lemma AcceptsIff(prompt: string, isGenerating: bool)
    ensures Accepts(prompt, isGenerating) <==> !isGenerating && exists i :: 0 <= i < |prompt| && !IsWhitespace(prompt[i])
  {
    TrimEmptyIff(prompt);
  }

  /** The text a run of chunks adds up to, a missing delta counting as "". */
  function Accumulate(deltas: seq<Option<string>>): string
  {
    if deltas == [] then "" else Accumulate(deltas[..|deltas| - 1]) + OrEmpty(deltas[|deltas| - 1])
  }

  /** The value written to the state buffer after each chunk: the whole accumulated text so far. */
  function Snapshots(deltas: seq<Option<string>>): (snaps: seq<string>)
    ensures |snaps| == |deltas|
  {
    if deltas == [] then [] else Snapshots(deltas[..|deltas| - 1]) + [Accumulate(deltas)]
  }

  /** The last element of `s`, or `default` when `s` is empty. */
  function LastOr(default: string, s: seq<string>): string {
    if s == [] then default else s[|s| - 1]
  }

  /** How many chunks are applied: all of them, or those that arrive before the transport throws. */
  function Received(deltas: seq<Option<string>>, failAfter: Option<nat>): (n: nat)
    ensures n <= |deltas|
    ensures failAfter.None? ==> n == |deltas|
  {
    if failAfter.Some? && failAfter.value < |deltas| then failAfter.value else |deltas|
  }

  /**
   * Every value one accepted send writes to the state buffer, in order: one
   * snapshot per applied chunk, then, on failure, the buffer's value at that
   * moment with the error suffix appended.
   */
  function StateWrites(prior: string, deltas: seq<Option<string>>, failAfter: Option<nat>): seq<string>
  {
    var streamed := Snapshots(deltas[..Received(deltas, failAfter)]);
    if failAfter.Some? then streamed + [LastOr(prior, streamed) + ErrorSuffix] else streamed
  }

  /** The state buffer after one accepted send: the last value written, or the prior state if none was. */
  function FinalState(prior: string, deltas: seq<Option<string>>, failAfter: Option<nat>): string {
    LastOr(prior, StateWrites(prior, deltas, failAfter))
  }

  /** Accumulating two runs of chunks one after the other concatenates their texts. */
  lemma {:induction false} AccumulateAppend(a: seq<Option<string>>, b: seq<Option<string>>)
    ensures Accumulate(a + b) == Accumulate(a) + Accumulate(b)
    decreases |b|
  {
    if b == [] {
      assert a + b == a;
    } else {
      var b' := b[..|b| - 1];
      assert (a + b)[..|a + b| - 1] == a + b';
      AccumulateAppend(a, b');
    }
  }

  /** The k-th write is the concatenation of the first k+1 deltas; it does not depend on the prior state. */
  lemma {:induction false} SnapshotAt(deltas: seq<Option<string>>, k: nat)
    requires k < |deltas|
    ensures Snapshots(deltas)[k] == Accumulate(deltas[..k + 1])
    decreases |deltas|
  {
    if k < |deltas| - 1 {
      var init := deltas[..|deltas| - 1];
      assert init[..k + 1] == deltas[..k + 1];
      SnapshotAt(init, k);
    } else {
      assert deltas[..k + 1] == deltas;
    }
  }

  /** Every value written while streaming is a prefix of every later one. */
  lemma SnapshotsGrow(deltas: seq<Option<string>>, i: nat, j: nat)
    requires i <= j < |deltas|
    ensures Snapshots(deltas)[i] <= Snapshots(deltas)[j]
  {
    var head, tail := deltas[..i + 1], deltas[i + 1..j + 1];
    assert deltas[..j + 1] == head + tail;
    AccumulateAppend(head, tail);
    SnapshotAt(deltas, i);
    SnapshotAt(deltas, j);
  }

  /**
   * Every value a send writes extends the one written before it, the
   * error annotation included: partial output is never discarded.
   */
  lemma WritesGrow(prior: string, deltas: seq<Option<string>>, failAfter: Option<nat>, i: nat, j: nat)
    requires i <= j < |StateWrites(prior, deltas, failAfter)|
    ensures StateWrites(prior, deltas, failAfter)[i] <= StateWrites(prior, deltas, failAfter)[j]
  {
    var streamed := Snapshots(deltas[..Received(deltas, failAfter)]);
    var writes := StateWrites(prior, deltas, failAfter);
    if j < |streamed| {
      SnapshotsGrow(deltas[..Received(deltas, failAfter)], i, j);
    } else if i < j {
      SnapshotsGrow(deltas[..Received(deltas, failAfter)], i, |streamed| - 1);
      assert writes[j] == streamed[|streamed| - 1] + ErrorSuffix;
    }
  }

  /**
   * The state buffer after an accepted send, case by case: a stream that
   * ends without chunks never writes it; a stream that ends normally leaves
   * exactly the concatenated deltas, whatever the prior state was; a stream
   * that fails after k chunks leaves the first k deltas (or the prior state
   * when k is 0) followed by the error suffix.
   */
  lemma FinalStateCases(prior: string, deltas: seq<Option<string>>, failAfter: Option<nat>)
    ensures failAfter.None? && deltas == [] ==>
      StateWrites(prior, deltas, failAfter) == [] && FinalState(prior, deltas, failAfter) == prior
    ensures failAfter.None? && deltas != [] ==> FinalState(prior, deltas, failAfter) == Accumulate(deltas)
    ensures failAfter.Some? ==>
      var k := Received(deltas, failAfter);
      FinalState(prior, deltas, failAfter) == (if k == 0 then prior else Accumulate(deltas[..k])) + ErrorSuffix
  {
    var k := Received(deltas, failAfter);
    if k > 0 {
      SnapshotAt(deltas[..k], k - 1);
      assert deltas[..k][..k] == deltas[..k];
    }
    assert deltas[..|deltas|] == deltas;
  }

  /** The three-chunk stream "Hel", "lo, ", "world" shows as three growing values, then stays. */
  lemma HelloWorldStream(prior: string)
    ensures StateWrites(prior, [Some("Hel"), Some("lo, "), Some("world")], None)
            == ["Hel", "Hello, ", "Hello, world"]
  {
    var deltas := [Some("Hel"), Some("lo, "), Some("world")];
    assert deltas[..3] == deltas;
    assert Accumulate(deltas[..1]) == "Hel" by {
      assert deltas[..1][..0] == [];
    }
    assert Accumulate(deltas[..2]) == "Hello, " by {
      assert deltas[..2][..1] == deltas[..1];
    }
    assert Accumulate(deltas[..3]) == "Hello, world" by {
      assert deltas[..3][..2] == deltas[..2];
    }
    SnapshotAt(deltas, 0);
    SnapshotAt(deltas, 1);
    SnapshotAt(deltas, 2);
  }

  /** One chunk "partial" and then a transport failure leave "partial" with the error suffix. */
  lemma PartialThenFailure(prior: string)
    ensures FinalState(prior, [Some("partial")], Some(1)) == "partial" + ErrorSuffix
  {
    var deltas := [Some("partial")];
    assert deltas[..1] == deltas;
  }

  class Sculptor {
    /** The state buffer. */
    var state: string
    /** The instruction buffer. */
    var prompt: string
    /** True while a send is streaming. */
    var isGenerating: bool
    /** The stored provider settings. */
    var config: SculptConfig

    /** Every value written to the state buffer, in order. */
    ghost var stateWrites: seq<string>
    /** Every value written to the busy flag, in order. */
    ghost var busyWrites: seq<bool>

    constructor ()
      ensures state == InitialState && prompt == "" && !isGenerating && config == DefaultConfig
      ensures stateWrites == [] && busyWrites == []
    {
      state := InitialState;
      prompt := "";
      isGenerating := false;
      config := DefaultConfig;
      stateWrites := [];
      busyWrites := [];
    }

    /** The state editor's `onChange`: an undefined value clears the buffer. */
    method EditState(v: Option<string>)
      modifies this
      ensures state == OrEmpty(v) && stateWrites == old(stateWrites) + [state]
      ensures prompt == old(prompt) && isGenerating == old(isGenerating) && config == old(config)
      ensures busyWrites == old(busyWrites)
    {
      state := OrEmpty(v);
      stateWrites := stateWrites + [state];
    }

    /** The instruction editor's `onChange`: an undefined value clears the buffer. */
    method EditPrompt(v: Option<string>)
      modifies this
      ensures prompt == OrEmpty(v)
      ensures state == old(state) && isGenerating == old(isGenerating) && config == old(config)
      ensures stateWrites == old(stateWrites) && busyWrites == old(busyWrites)
    {
      prompt := OrEmpty(v);
    }

    /** The settings dialog's `setConfig`, driven by one of its change events. */
    method ChangeSettings(e: SettingsDialog.Change)
      modifies this
      ensures config == SettingsDialog.OnChange(old(config), e)
      ensures config.provider == old(config.provider)
      ensures state == old(state) && prompt == old(prompt) && isGenerating == old(isGenerating)
      ensures stateWrites == old(stateWrites) && busyWrites == old(busyWrites)
    {
      config := SettingsDialog.OnChange(config, e);
    }

    /**
     * The `try`/`catch` of `handleSend`: applies the chunks that arrive,
     * each overwriting the state with the whole reply accumulated so far,
     * then appends the error suffix if the transport threw.
     */
    method Stream(deltas: seq<Option<string>>, failAfter: Option<nat>)
      modifies this`state, this`stateWrites
      ensures state == FinalState(old(state), deltas, failAfter)
      ensures stateWrites == old(stateWrites) + StateWrites(old(state), deltas, failAfter)
    {
      ghost var prior := state;
      var n := Received(deltas, failAfter);
      var accumulated := "";
      var i := 0;
      while i < n
        invariant 0 <= i <= n <= |deltas|
        invariant accumulated == Accumulate(deltas[..i])
        invariant state == LastOr(prior, Snapshots(deltas[..i]))
        invariant stateWrites == old(stateWrites) + Snapshots(deltas[..i])
      {
        var content := OrEmpty(deltas[i]);
        assert deltas[..i + 1][..i] == deltas[..i];
        accumulated := accumulated + content;
        state := accumulated;
        stateWrites := stateWrites + [state];
        i := i + 1;
      }

      if failAfter.Some? {
        state := state + ErrorSuffix;
        stateWrites := stateWrites + [state];
      }
    }

    /**
     * `handleSend`. A blank prompt or a call while busy changes nothing and
     * sends nothing. Otherwise the untrimmed prompt is sent with the state
     * held before the call, the prompt is cleared, the busy flag goes up,
     * every applied chunk overwrites the state with the accumulated reply,
     * a failure appends the error suffix to whatever the state holds, and
     * the busy flag comes down on every path.
     */
    method Send(deltas: seq<Option<string>>, failAfter: Option<nat>) returns (request: Option<ChatRequest>)
      modifies this
      ensures config == old(config)
      ensures !Accepts(old(prompt), old(isGenerating)) ==>
        request == None && state == old(state) && prompt == old(prompt)
        && isGenerating == old(isGenerating)
        && stateWrites == old(stateWrites) && busyWrites == old(busyWrites)
      ensures Accepts(old(prompt), old(isGenerating)) ==>
        request == Some(ChatRequestFor(old(config), old(state), old(prompt)))
        && prompt == "" && !isGenerating
        && state == FinalState(old(state), deltas, failAfter)
        && stateWrites == old(stateWrites) + StateWrites(old(state), deltas, failAfter)
        && busyWrites == old(busyWrites) + [true, false]
    {
      if Trim(prompt) == "" || isGenerating {
        return None;
      }

      isGenerating := true;
      busyWrites := busyWrites + [true];
      var instruction := prompt;
      prompt := "";

      request := Some(ChatRequestFor(config, state, instruction));

      Stream(deltas, failAfter);

      isGenerating := false;
      busyWrites := busyWrites + [false];
    }
  }

  /** Client check: a fresh sculptor streams "Hel", "lo, ", "world" into its state buffer. */
  method StreamedSendScenario() {
    var s := new Sculptor();
    s.EditPrompt(Some("greet"));
    assert Trim("greet") != "" by {
      assert !IsWhitespace("greet"[0]);
      TrimEmptyIff("greet");
    }
    var r := s.Send([Some("Hel"), Some("lo, "), Some("world")], None);
    HelloWorldStream(InitialState);
    assert s.stateWrites == ["Hel", "Hello, ", "Hello, world"];
    assert s.state == "Hello, world" && s.prompt == "" && !s.isGenerating;
  }

  /** Client check: one chunk and then a transport failure keep the partial output and annotate it. */
  method FailedSendScenario() {
    var s := new Sculptor();
    s.EditPrompt(Some("more"));
    assert Trim("more") != "" by {
      assert !IsWhitespace("more"[0]);
      TrimEmptyIff("more");
    }
    var r := s.Send([Some("partial"), None], Some(1));
    PartialThenFailure(InitialState);
    assert s.state == "partial" + ErrorSuffix && s.prompt == "" && !s.isGenerating;
  }

  /** Client check: a whitespace-only prompt is dropped and nothing changes. */
  method BlankSendScenario() {
    var s := new Sculptor();
    s.EditPrompt(Some(" \n"));
    assert Trim(" \n") == "" by {
      TrimEmptyIff(" \n");
    }
    var r := s.Send([Some("ignored")], None);
    assert r == None && s.state == InitialState && s.prompt == " \n" && !s.isGenerating;
  }
}
