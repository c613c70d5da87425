/** The two-stage reasoner: ask for a chain of thought about the query,
    then ask for a final answer given that chain of thought. */
module Reasoning {
  import opened Generation
  import opened Prompts

  /** Token budget of the chain-of-thought request. */
  const ReasoningMaxLength := 250
  /** Token budget of the final-answer request. */
  const AnswerMaxLength := 150

  /** The requests `run_reasoning(query)` makes: first the chain-of-thought
      prompt, then the final-answer prompt carrying the first reply as its
      reasoning; the second reply is the answer. */
  ghost predicate IsReasoningRun(query: string, log: seq<Exchange>, answer: string) {
    |log| == 2
    && log[0].prompt == ChainOfThought(query)
    && log[0].maxLength == ReasoningMaxLength
    && log[1] == Exchange(FinalAnswer(query, log[0].reply), AnswerMaxLength, answer)
  }

  /** `MultiStepReasoner.run_reasoning(query)`. */
  method RunReasoning(llm: Completion, query: string) returns (answer: string)
    requires llm.Faithful()
    modifies llm
    ensures llm.Faithful() && old(llm.calls) <= llm.calls
    ensures IsReasoningRun(query, llm.calls[|old(llm.calls)|..], answer)
    ensures Answered(llm.model, old(llm.calls), llm.calls[|old(llm.calls)|..])
  {
    var chainOfThought := llm.Generate(ChainOfThought(query), ReasoningMaxLength);
    answer := llm.Generate(FinalAnswer(query, chainOfThought), AnswerMaxLength);
    assert llm.calls[|old(llm.calls)|..]
           == [Exchange(ChainOfThought(query), ReasoningMaxLength, chainOfThought),
               Exchange(FinalAnswer(query, chainOfThought), AnswerMaxLength, answer)];
    AnsweredSince(llm.model, old(llm.calls), llm.calls);
  }

  /** The second request sees the first reply verbatim in its reasoning
      slot, and both requests carry the same query verbatim. */
  lemma SecondPromptCarriesFirstReply(query: string, log: seq<Exchange>, answer: string)
    requires IsReasoningRun(query, log, answer)
    ensures var r1 := log[0].reply;
      |FinalIntro| + |r1| <= |log[1].prompt|
      && log[1].prompt[|FinalIntro|..|FinalIntro| + |r1|] == r1
    ensures log[0].prompt[|CotIntro|..|CotIntro| + |query|] == query
    ensures var q := |FinalIntro| + |log[0].reply| + |FinalMiddle|;
      q + |query| <= |log[1].prompt| && log[1].prompt[q..q + |query|] == query
  {
  }

  /** When the model answered the run, the chain of thought is the model's
      reply to the chain-of-thought prompt, and the result is its reply to
      the final-answer prompt built from that chain of thought, not the
      first reply. */
  lemma AnswerComesFromModel(model: (seq<Exchange>, string, int) -> string, before: seq<Exchange>,
                             query: string, log: seq<Exchange>, answer: string)
    requires IsReasoningRun(query, log, answer) && Answered(model, before, log)
    ensures log[0].reply == model(before, ChainOfThought(query), ReasoningMaxLength)
    ensures answer == model(before + [log[0]], FinalAnswer(query, log[0].reply), AnswerMaxLength)
  {
    assert log[..0] == [] && log[..1] == [log[0]];
    assert before + [] == before;
  }
}
