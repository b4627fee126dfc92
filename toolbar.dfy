/** The AI prompt panel of the toolbar (components/Toolbar.tsx): what the
    input keeps of typed text, when a prompt is accepted, and the panel state
    around a request. */
module Toolbar {
  import opened Strings

  /** The most characters a prompt may have. */
  const PROMPT_LIMIT := 500

  /** The outcome of the submit checks. */
  datatype Verdict = Blank | TooLong | Accepted(prompt: string)

  /** The checks of `handleAISubmit` (lines 39-49): the prompt is trimmed; an
      empty result is refused, one longer than the limit is refused, any
      other is what gets requested. */
  function Validate(raw: string): (v: Verdict)
    ensures v.Blank? <==> forall i :: 0 <= i < |raw| ==> IsSpace(raw[i])
    ensures v.TooLong? <==> |Trim(raw)| > PROMPT_LIMIT
    ensures v.Accepted? ==> v.prompt == Trim(raw) && 0 < |v.prompt| <= PROMPT_LIMIT && Trimmed(v.prompt)
  {
    var t := Trim(raw);
    if t == [] then Blank else if |t| > PROMPT_LIMIT then TooLong else Accepted(t)
  }

  /** `value.slice(0, 500)` (line 93): what the input keeps of typed text. */
  function Typed(input: string): (r: string)
    ensures |r| <= PROMPT_LIMIT
    ensures |r| <= |input| && r == input[..|r|]
    ensures |input| <= PROMPT_LIMIT ==> r == input
    ensures |input| > PROMPT_LIMIT ==> |r| == PROMPT_LIMIT
  {
    if |input| <= PROMPT_LIMIT then input else input[..PROMPT_LIMIT]
  }

  /** Typed text can never reach the "too long" refusal: trimming does not
      make a string longer. */
  lemma TypedNeverTooLong(input: string)
    ensures !Validate(Typed(input)).TooLong?
  {
  }

  /** The submit button is disabled while generating or while the trimmed
      prompt is empty (line 114). */
  predicate SubmitDisabled(isGenerating: bool, prompt: string) {
    isGenerating || Trim(prompt) == []
  }

  /** A prompt the enabled button submits passes the checks when it was
      typed into the input. */
  lemma EnabledSubmitAccepted(input: string)
    requires !SubmitDisabled(false, Typed(input))
    ensures Validate(Typed(input)).Accepted?
  {
    TypedNeverTooLong(input);
  }

  class AIPanel {
    var isOpen: bool
    /** `aiPrompt`: the text in the input. */
    var prompt: string
    var isGenerating: bool
    /** The prompts handed to `onAIRequest`, oldest first. */
    var requested: seq<string>

    constructor ()
      ensures !isOpen && prompt == "" && !isGenerating && requested == []
    {
      isOpen, prompt, isGenerating, requested := false, "", false, [];
    }

    /** The input's change handler: the typed text, cut to the limit. */
    method Type(input: string)
      modifies this`prompt
      ensures prompt == Typed(input) && |prompt| <= PROMPT_LIMIT
    {
      prompt := Typed(input);
    }

    /** The synchronous part of `handleAISubmit` (lines 37-53): a refused
        prompt changes nothing (the user is alerted); an accepted one sets
        `isGenerating` and is requested, trimmed. */
    method BeginSubmit() returns (v: Verdict)
      modifies this`isGenerating, this`requested
      ensures v == Validate(old(prompt))
      ensures !v.Accepted? ==> isGenerating == old(isGenerating) && requested == old(requested)
      ensures v.Accepted? ==> isGenerating && requested == old(requested) + [Trim(old(prompt))]
    {
      v := Validate(prompt);
      if v.Accepted? {
        isGenerating := true;
        requested := requested + [v.prompt];
      }
    }

    /** The end of `handleAISubmit` (lines 54-61): on success the input is
        emptied and the panel closed; on a thrown error both stay; either way
        `isGenerating` is cleared. */
    method FinishSubmit(threw: bool)
      modifies this`isGenerating, this`prompt, this`isOpen
      ensures !isGenerating
      ensures !threw ==> prompt == "" && !isOpen
      ensures threw ==> prompt == old(prompt) && isOpen == old(isOpen)
    {
      if !threw {
        prompt := "";
        isOpen := false;
      }
      isGenerating := false;
    }
  }
}
