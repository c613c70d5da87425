/** Retrieval-augmented question answering: fetch up to three passages for
    the question, build one of two prompts depending on whether anything
    but whitespace came back, and ask the completion service once. */
module RagPipeline {
  import opened Text
  import opened Generation

  /** How many passages are requested for a question. */
  const RetrievalCount := 3
  /** Token budget of the answering request. */
  const AnswerMaxLength := 200

  const BareIntro := "Answer the question:\nQuestion: "
  const ContextIntro := "You have the following context:\n\n"
  const ContextMiddle := "\n\nUse this context to answer the question:\n"
  const AnswerOutro := "\nAnswer:"

  /** The document retriever after construction: without text files there
      is no index; otherwise `search(query, k)` stands for the page contents
      of the vector store's `similarity_search(query, k=k)`, best first. */
  datatype Retriever = NoIndex | Indexed(search: (string, int) -> seq<string>)

  /** `get_relevant_text(query, k)`: nothing without an index, otherwise the
      retrieved passages joined by newlines. */
  function RelevantText(r: Retriever, query: string, k: int): (context: string)
    ensures r.NoIndex? ==> context == ""
    ensures r.Indexed? && r.search(query, k) == [] ==> context == ""
    ensures r.Indexed? && |r.search(query, k)| == 1 ==> context == r.search(query, k)[0]
  {
    match r
    case NoIndex => ""
    case Indexed(search) => Join("\n", search(query, k))
  }

  /** The prompt `ask_question` builds for `question` and the retrieved
      `context`. */
  function RagPrompt(question: string, context: string): (p: string)
    ensures Blank(context) ==> p == BareIntro + question + AnswerOutro
    ensures !Blank(context) ==> p == ContextIntro + context + ContextMiddle + question + AnswerOutro
  {
    if Strip(context) == [] then BareIntro + (question + AnswerOutro)
    else ContextIntro + (context + (ContextMiddle + (question + AnswerOutro)))
  }

  /** The two prompt shapes are never confused: the prompt opens with the
      bare instruction exactly when the context is blank, and with the
      context header exactly when it is not. */
  lemma PromptShapeFollowsContext(question: string, context: string)
    ensures BareIntro <= RagPrompt(question, context) <==> Blank(context)
    ensures ContextIntro <= RagPrompt(question, context) <==> !Blank(context)
  {
    var p := RagPrompt(question, context);
    if Blank(context) {
      assert p == BareIntro + (question + AnswerOutro);
      assert p[0] == 'A';
    } else {
      assert p == ContextIntro + (context + (ContextMiddle + (question + AnswerOutro)));
      assert p[0] == 'Y';
    }
  }

  /** Whatever the context, the question appears verbatim right before the
      closing `Answer:`, and a non-blank context appears verbatim right
      after the header. */
  lemma PromptEmbedsInputs(question: string, context: string)
    ensures var p := RagPrompt(question, context);
      |question| + |AnswerOutro| <= |p|
      && p[|p| - |AnswerOutro| - |question|..] == question + AnswerOutro
    ensures !Blank(context) ==>
      var p := RagPrompt(question, context);
      |ContextIntro| + |context| <= |p|
      && p[|ContextIntro|..|ContextIntro| + |context|] == context
  {
    var p := RagPrompt(question, context);
    var tail := question + AnswerOutro;
    if Blank(context) {
      assert p == BareIntro + tail;
    } else {
      var rest := ContextMiddle + tail;
      assert p == ContextIntro + (context + rest);
      assert p[|ContextIntro|..][..|context|] == context;
      assert p[|p| - |tail|..] == rest[|ContextMiddle|..];
    }
  }

  /** Without indexed documents the question is asked bare. */
  lemma NoIndexAsksBare(question: string)
    ensures RagPrompt(question, RelevantText(NoIndex, question, RetrievalCount))
            == BareIntro + question + AnswerOutro
  {
    assert Blank("");
  }

  class RAGPipeline {
    const retriever: Retriever

    /** The retriever the source builds in `__init__` is passed in. */
    constructor (retriever: Retriever)
      ensures this.retriever == retriever
    {
      this.retriever := retriever;
    }

    /** `ask_question(question)`: one request of at most 200 tokens over the
        prompt for the three best passages; its reply is the answer. */
    method AskQuestion(llm: Completion, question: string) returns (answer: string)
      requires llm.Faithful()
      modifies llm
      ensures llm.Faithful()
      ensures llm.calls == old(llm.calls)
        + [Exchange(RagPrompt(question, RelevantText(retriever, question, RetrievalCount)),
                    AnswerMaxLength, answer)]
      ensures answer == llm.model(old(llm.calls),
                                  RagPrompt(question, RelevantText(retriever, question, RetrievalCount)),
                                  AnswerMaxLength)
    {
      var context := RelevantText(retriever, question, RetrievalCount);
      answer := llm.Generate(RagPrompt(question, context), AnswerMaxLength);
    }
  }
}
