/** The single-pass refiner: fill the refinement template and ask once. */
module Refinement {
  import opened Generation
  import Prompts

  /** Token budget of the refinement request. */
  const RefineMaxLength := 200

  /** `Refiner.refine_text(text, instructions)`: exactly one request, over
      the refinement prompt, whose reply is returned unchanged. */
  method RefineText(llm: Completion, text: string, instructions: string) returns (refined: string)
    requires llm.Faithful()
    modifies llm
    ensures llm.Faithful()
    ensures llm.calls == old(llm.calls) + [Exchange(Prompts.Refinement(text, instructions), RefineMaxLength, refined)]
    ensures refined == llm.model(old(llm.calls), Prompts.Refinement(text, instructions), RefineMaxLength)
  {
    refined := llm.Generate(Prompts.Refinement(text, instructions), RefineMaxLength);
  }
}
