/**
 * The stand-in for the language-model call: a fixed answer chosen by a
 * case-insensitive keyword test on the prompt.
 */
module Reasoning {
  import opened Text

  const Promising := "LLM: lead looks promising due to funding and tech-stack match."
  const DefaultReasoning := "LLM: default reasoning."

  /** `llm_reasoning_prompt`: the promising answer exactly when the lowered prompt
      mentions "qualification", the default answer otherwise. */
  function LlmReasoningPrompt(prompt: string): (r: string)
    ensures r == Promising <==> Contains(Lower(prompt), "qualification")
    ensures r == DefaultReasoning <==> !Contains(Lower(prompt), "qualification")
  {
    if Contains(Lower(prompt), "qualification") then Promising else DefaultReasoning
  }

  /** A prompt that already starts with the keyword in lower case gets the promising answer. */
  lemma KeywordPromptIsPromising(rest: string)
    requires NoUpper(rest)
    ensures LlmReasoningPrompt("qualification" + rest) == Promising
  {
    var p := "qualification" + rest;
    assert NoUpper("qualification");
    assert NoUpper(p) by {
      forall i | 0 <= i < |p| ensures !('A' <= p[i] <= 'Z') {
        if i >= 13 { assert p[i] == rest[i - 13]; }
      }
    }
    LowerNoUpper(p);
    assert "qualification" <= p;
  }
}
