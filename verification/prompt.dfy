/**
 * The two messages every sculpt request carries: a fixed system
 * instruction and a user message that embeds the current state and the
 * instruction verbatim under two textual labels. Both the TokenJS
 * revision of the app and the Gemini adapter build exactly these.
 */
module Prompt {
  import opened Wrappers

  const SystemInstruction: string :=
    "You are a Vibe Sculptor. Update the provided code/text state based on instructions. Return ONLY the updated state."

  const StateLabel: string := "Current State:\n"
  const InstructionLabel: string := "\n\nInstruction: "

  /** `Current State:\n${state}\n\nInstruction: ${instruction}`. */
  function UserContent(state: string, instruction: string): string
  {
    StateLabel + state + InstructionLabel + instruction
  }

  /** A user message starts with the state label, holds the state right after it and ends with the instruction. */
  lemma UserContentLayout(state: string, instruction: string)
    ensures var content := UserContent(state, instruction);
      && |content| == |StateLabel| + |state| + |InstructionLabel| + |instruction|
      && content[..|StateLabel|] == StateLabel
      && content[|StateLabel|..|StateLabel| + |state|] == state
      && content[|content| - |instruction|..] == instruction
  {
  }

  /**
   * Reads the instruction back out of a user message whose state part is
   * known: `None` when `content` does not start with the labelled `state`.
   */
  function InstructionIn(content: string, state: string): (instruction: Option<string>)
    ensures instruction.Some? ==> UserContent(state, instruction.value) == content
  {
    var head := StateLabel + state + InstructionLabel;
    if head <= content then
      assert content == head + content[|head|..];
      Some(content[|head|..])
    else
      None
  }

  /** Given the state it was built from, a user message gives back its instruction unchanged. */
  lemma InstructionRoundTrip(state: string, instruction: string)
    ensures InstructionIn(UserContent(state, instruction), state) == Some(instruction)
  {
    var head := StateLabel + state + InstructionLabel;
    assert UserContent(state, instruction) == head + instruction;
  }

  /**
   * The labels are plain text and nothing is escaped: a state that itself
   * contains the instruction label produces the same message as a
   * different (state, instruction) pair.
   */
  lemma LabelsAreNotEscaped()
    ensures UserContent("a" + InstructionLabel + "b", "c") == UserContent("a", "b" + InstructionLabel + "c")
  {
  }
}
