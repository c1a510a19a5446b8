/**
 * One question on the editing page: a prompt chosen from four presets or
 * written freely, and an answer saved when the editor loses focus.
 */
module QuestionEdit {
  import opened Wrappers
  import opened Strings

  /** The preset prompts, in the order the dropdown lists them. */
  const PROMPTS: seq<string> := [
    "What encouraged you to work on this project?",
    "What was the biggest challenge you faced?",
    "What did you learn from this experience?",
    "If you were to start this project over, what would you do differently?"
  ]

  /** The value of the dropdown's custom entry. */
  const CUSTOM := "custom"
  /** The value of the dropdown's disabled placeholder entry. */
  const DEFAULT := "default"
  const FAILED_PROMPT := "Failed to save prompt"
  const FAILED_ANSWER := "Failed to save answer"

  /** Every value the dropdown has an entry for. */
  function Options(): seq<string> {
    [DEFAULT] + PROMPTS + [CUSTOM]
  }

  /** Whether a question loaded with this prompt starts in custom mode. */
  function InitialCustom(prompt: string): bool {
    !(prompt in PROMPTS) && prompt != ""
  }

  /** The dropdown's value: the custom entry, the placeholder for no prompt, or the prompt itself. */
  function SelectValue(custom: bool, localPrompt: string): string {
    if custom then CUSTOM else if localPrompt == "" then DEFAULT else localPrompt
  }

  /** Outside custom mode the prompt is empty or a preset. */
  predicate Consistent(custom: bool, localPrompt: string) {
    custom || localPrompt == "" || localPrompt in PROMPTS
  }

  /**
   * A question starts in custom mode exactly when its prompt is non-empty
   * and not a preset; so the dropdown shows the placeholder for no prompt,
   * the preset itself for a preset, and the custom entry otherwise.
   */
  lemma InitialMode(prompt: string)
    ensures InitialCustom(prompt) <==> prompt != "" && prompt !in PROMPTS
    ensures Consistent(InitialCustom(prompt), prompt)
    ensures SelectValue(InitialCustom(prompt), prompt) ==
      if prompt == "" then DEFAULT else if prompt in PROMPTS then prompt else CUSTOM
  {
  }

  /**
   * Whenever the prompt outside custom mode is empty or a preset, the
   * dropdown's value is one of its entries, and it is the custom entry
   * exactly in custom mode.
   */
  lemma SelectValueIsAnOption(custom: bool, localPrompt: string)
    requires Consistent(custom, localPrompt)
    ensures SelectValue(custom, localPrompt) in Options()
    ensures SelectValue(custom, localPrompt) == CUSTOM <==> custom
  {
    assert CUSTOM !in PROMPTS;
    if !custom && localPrompt != "" {
      var k :| 0 <= k < |PROMPTS| && PROMPTS[k] == localPrompt;
      assert Options()[k + 1] == localPrompt;
    }
  }

  class QuestionInput {
    var localPrompt: string
    var localAnswer: string
    var customPrompt: bool
    var error: Option<string>

    ghost predicate Valid()
      reads this
    {
      Consistent(customPrompt, localPrompt)
    }

    constructor (prompt: string, answer: string)
      ensures Valid()
      ensures localPrompt == prompt && localAnswer == answer && error == Some("")
      ensures customPrompt <==> prompt != "" && prompt !in PROMPTS
    {
      localPrompt := prompt;
      localAnswer := answer;
      customPrompt := InitialCustom(prompt);
      error := Some("");
    }

    /** The dropdown's current value. */
    function Selected(): string
      reads this
    {
      SelectValue(customPrompt, localPrompt)
    }

    /** The prompt text field accepts input only in custom mode. */
    predicate TextFieldEnabled()
      reads this
    {
      customPrompt
    }

    /**
     * `handlePromptSelect` up to its save. It is called with the value of an
     * enabled entry: a preset or the custom entry. Custom mode clears the
     * prompt and saves nothing; a preset becomes the prompt, leaves custom
     * mode and is returned to be saved. Either way the dropdown then shows
     * the entry chosen.
     */
    method SelectPrompt(selected: string) returns (save: Option<string>)
      requires Valid()
      requires selected == CUSTOM || selected in PROMPTS
      modifies this
      ensures Valid()
      ensures selected == CUSTOM ==> customPrompt && localPrompt == "" && save.None?
      ensures selected != CUSTOM ==> !customPrompt && localPrompt == selected && save == Some(selected)
      ensures Selected() == selected
      ensures localAnswer == old(localAnswer) && error == old(error)
    {
      if selected == CUSTOM {
        customPrompt := true;
        localPrompt := "";
        save := None;
      } else {
        localPrompt := selected;
        customPrompt := false;
        save := Some(selected);
      }
    }

    /** The reply to a preset's save: a failure shows its message, or a default one. */
    method PromptSaved(ok: bool, message: Option<string>)
      modifies this
      ensures error == if ok then old(error) else Some(OrElse(message, FAILED_PROMPT))
      ensures localPrompt == old(localPrompt) && localAnswer == old(localAnswer) && customPrompt == old(customPrompt)
    {
      if !ok {
        error := Some(OrElse(message, FAILED_PROMPT));
      }
    }

    /** The reply to a typed prompt's save: the banner shows its message, or nothing. */
    method PromptTextSaved(message: Option<string>)
      modifies this
      ensures error == message
      ensures localPrompt == old(localPrompt) && localAnswer == old(localAnswer) && customPrompt == old(customPrompt)
    {
      error := message;
    }

    /** Typing in the answer editor. */
    method AnswerChange(value: string)
      modifies this
      ensures localAnswer == value
      ensures localPrompt == old(localPrompt) && customPrompt == old(customPrompt) && error == old(error)
    {
      localAnswer := value;
    }

    /** The reply to saving the answer on blur: a failure shows its message, or a default one. */
    method AnswerSaved(ok: bool, message: Option<string>)
      modifies this
      ensures error == if ok then old(error) else Some(OrElse(message, FAILED_ANSWER))
      ensures localPrompt == old(localPrompt) && localAnswer == old(localAnswer) && customPrompt == old(customPrompt)
    {
      if !ok {
        error := Some(OrElse(message, FAILED_ANSWER));
      }
    }
  }
}
