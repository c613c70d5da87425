# TermAI-Infinity text pipelines in Dafny

This project models the orchestration layer of TermAI-Infinity, a
command-line toolkit that drives a local text-completion model. The model
covers four parts:

- **Word chunker and map-reduce summariser** (`summerization.py`). The
  file's words are grouped into chunks of at most `chunk_size` words. Each
  chunk is summarised with one request of 150 tokens, in chunk order. The
  stripped partial summaries are joined by newlines and summarised once
  more, with 200 tokens. A missing file gives the literal `"File not found."`.
- **The five prompt templates** (`prompts.py`). Each template is kept in the
  form `str.format` parses it into: literal text and named fields. `Format`
  is single-pass substitution, and `KeyError` is modelled as `MissingField`.
- **Retrieval-augmented prompt construction** (`rag_pipeline.py`). The
  prompt has one of two exact shapes. It is chosen by whether the retrieved
  context is empty after `strip()`.
- **Two-stage reasoner and one-pass refiner** (`reasoning.py`,
  `refinement.py`). These compose template filling and completion requests.

The completion service is the class `Generation.Completion`. Its reply is
an arbitrary function, fixed when the object is built, of the earlier
exchanges and the new request. The object records every exchange, so each
pipeline is specified by the exact sequence of requests it makes. Its invariant
`Faithful()` says that every recorded reply is the model's own answer to
that request given the exchanges before it. The constructor establishes
it, only `Generate` extends the record, and every pipeline requires and
keeps it, so the replies a pipeline returns are tied to the model.

Modules:

- `Text`: `str.split()`, `str.strip()` and `sep.join` over ASCII whitespace.
- `Generation`: the completion oracle.
- `Prompts`: the templates.
- `Summarization`, `RagPipeline`, `Reasoning`, `Refinement`: the pipelines.

## Model

| member | source | states |
|---|---|---|
| Text.Split | modules/summerization.py:42 | `text.split()` yields non-empty, whitespace-free words, and yields none exactly when the text is blank |
| Text.SplitJoin | modules/summerization.py:47-48 | splitting words joined by single spaces gives the same words back, so a chunk string re-splits into its own words |
| Text.Strip | modules/summerization.py:31 | `strip()` is empty exactly for blank text; otherwise it starts and ends with non-whitespace |
| Text.Join | modules/summerization.py:48 | `sep.join(xs)` opens with the first item |
| Text.JoinEnds | modules/summerization.py:34 | `sep.join(xs)` closes with the last item |
| Text.SplitWord | modules/summerization.py:42 | a word followed by nothing or by whitespace splits off as exactly that word |
| Text.StripIsInfix | modules/rag_pipeline.py:17 | `strip()` keeps one contiguous part of its input and cuts only whitespace on either side |
| Generation.Completion.constructor | modules/text_generation.py:15 | a fresh completion service has made no requests yet, so its record is trivially faithful |
| Generation.Completion.Generate | modules/text_generation.py:17-30 | `generate_text` answers as the model does for this history and request, appends exactly one exchange to the record, and keeps every recorded reply the model's own answer (`Faithful`) |
| Generation.AnsweredAppend | modules/text_generation.py:17-30 | appending the model's own answer to a log of model answers keeps it a log of model answers |
| Generation.AnsweredSplit | modules/text_generation.py:17-30 | both parts of a log of model answers are logs of model answers, the second given the first |
| Generation.AnsweredSince | modules/text_generation.py:17-30 | in a faithful record, the exchanges made since an earlier state were all answered by the model given that state |
| Prompts.FormatSucceedsIffFieldsPresent | modules/prompts.py:4-51 | `str.format` on a template succeeds exactly when every field has a value; the output length is the literal text plus the substituted values |
| Prompts.Format | modules/prompts.py:4-51 | single-pass `str.format`; a failure names a field of the template that has no value, as `KeyError` does |
| Prompts.ChainOfThought | modules/prompts.py:4-9 | the query sits verbatim right after the fixed instruction line and `Query: ` |
| Prompts.ChainOfThoughtFormats | modules/prompts.py:4-9 | formatting the chain-of-thought template with `query` gives exactly `ChainOfThought(query)` |
| Prompts.ChainOfThoughtNeedsQuery | modules/prompts.py:4-9 | the chain-of-thought template fails exactly when `query` is missing |
| Prompts.FinalAnswer | modules/prompts.py:12-20 | the reasoning sits right after the header, and the query sits after the reasoning and the fixed middle |
| Prompts.FinalAnswerFormats | modules/prompts.py:12-20 | formatting the final-answer template gives exactly `FinalAnswer(query, reasoning)` |
| Prompts.FinalAnswerNeedsQueryAndReasoning | modules/prompts.py:12-20 | the final-answer template fails exactly when `query` or `reasoning` is missing |
| Prompts.ChunkSummary | modules/prompts.py:23-29 | the chunk text sits verbatim right after the instruction and the opening `---` line |
| Prompts.ChunkSummaryFormats | modules/prompts.py:23-29 | formatting the chunk-summary template gives exactly `ChunkSummary(chunk)` |
| Prompts.ChunkSummaryNeedsChunkText | modules/prompts.py:23-29 | the chunk-summary template fails exactly when `chunk_text` is missing |
| Prompts.CombineSummaries | modules/prompts.py:32-38 | the partial summaries sit verbatim right after the fixed header |
| Prompts.CombineSummariesFormats | modules/prompts.py:32-38 | formatting the combine template gives exactly `CombineSummaries(partials)` |
| Prompts.CombineSummariesNeedsPartials | modules/prompts.py:32-38 | the combine template fails exactly when `partial_summaries` is missing |
| Prompts.Refinement | modules/prompts.py:41-51 | the original text sits between the `---` lines, and the instructions follow it after the fixed middle |
| Prompts.RefinementFormats | modules/prompts.py:41-51 | formatting the refinement template gives exactly `Refinement(text, instructions)` |
| Prompts.RefinementNeedsTextAndInstructions | modules/prompts.py:41-51 | the refinement template fails exactly when `original_text` or `instructions` is missing |
| Prompts.PlaceholderInValueStaysLiteral | modules/prompts.py:4-9 | a value that reads `{query}` is substituted literally and is not expanded again |
| Summarization.ChunkTexts | modules/summerization.py:42-50 | reference definition of `_split_into_chunks`: the `" "`-joined groups of `size` consecutive words; its properties are the lemmas below |
| Summarization.ChunksFlatten | modules/summerization.py:45-49 | the word groups, concatenated in order, are exactly the input words |
| Summarization.ChunkCount | modules/summerization.py:44-49 | W words with a positive size form ceil(W / size) groups |
| Summarization.ChunkSizes | modules/summerization.py:46-48 | every group but the last has exactly `size` words; the last has between 1 and `size` |
| Summarization.ChunksDrawFromWords | modules/summerization.py:47 | every word of every group is one of the input words |
| Summarization.SplitChunkText | modules/summerization.py:47-48 | splitting the i-th chunk string gives back the i-th word group |
| Summarization.WordsOfChunkTexts | modules/summerization.py:42-50 | splitting every chunk string gives back the word groups |
| Summarization.ChunkTextsConserveWords | modules/summerization.py:42-50 | re-splitting the chunks and concatenating them gives exactly `text.split()` |
| Summarization.BlankTextNoChunks | modules/summerization.py:42-45 | the text yields no chunks exactly when it is empty or whitespace only |
| Summarization.ChunkTextsCount | modules/summerization.py:44-49 | a text of W words yields ceil(W / size) chunks |
| Summarization.ChunkTextsSizes | modules/summerization.py:46-48 | every chunk but the last holds `size` words; the last holds 1 to `size` |
| Summarization.ChunkLoopStep | modules/summerization.py:45-49 | one pass of the `while` loop keeps both loop invariants: the chunks so far cover exactly `words[:start]`, and they plus the chunks still to come are the final result |
| Summarization.SplitIntoChunks | modules/summerization.py:38-50 | the loop returns exactly the chunk strings `ChunkTexts` defines, and they conserve the words of `text.split()` |
| Summarization.PartialSummaries | modules/summerization.py:27-31 | `chunk_summaries` has one entry per map request, and entry i is the i-th reply stripped |
| Summarization.MapStep | modules/summerization.py:28-31 | one more chunk request extends the map phase by that chunk, and its stripped reply extends the partial summaries |
| Summarization.SummarizeChunks | modules/summerization.py:27-31 | the map loop makes one `(ChunkSummary(chunk), 150)` request per chunk, in chunk order, through `Generate`, so the record stays faithful; the partial summaries are those replies, stripped |
| Summarization.SummaryRunIntro | modules/summerization.py:33-36 | the map phase followed by the combine request over the newline-joined partials makes a complete summary run, whose last reply is the result |
| Summarization.SummaryComesFromModel | modules/summerization.py:29-36 | in a run the model answered, each chunk reply is the model's answer to that chunk's prompt, and the result is the model's answer to the combining prompt, returned unchanged |
| Summarization.SummaryCallCount | modules/summerization.py:26-35 | summarising W words makes ceil(W / size) + 1 requests |
| Summarization.BlankFileSummary | modules/summerization.py:26-35 | an empty or blank file makes exactly one request: the combine request over `""` with 200 tokens |
| Summarization.TwelveHundredWords | modules/summerization.py:26-35 | 1200 words at the default size of 500 make 4 requests; the first chunk has 500 words and the third has 200 |
| Summarization.Summarizer.constructor | modules/summerization.py:13-14 | the summariser keeps the chunk size it is given, 500 by default |
| Summarization.Summarizer.SummarizeFile | modules/summerization.py:16-36 | a missing file gives `"File not found."` with no request; otherwise the new requests are exactly a summary run over the file's chunks, each answered by the model given what came before, and the combine reply is returned unchanged |
| RagPipeline.RelevantText | modules/retrieval.py:36-43 | without an index the context is `""`; a single passage is the context as it is |
| RagPipeline.RagPrompt | modules/rag_pipeline.py:17-24 | a blank context gives exactly the bare question prompt; any other context gives exactly the context prompt |
| RagPipeline.PromptShapeFollowsContext | modules/rag_pipeline.py:17-24 | the prompt starts with `Answer the question:` exactly when the context is blank, and with the context header exactly when it is not |
| RagPipeline.PromptEmbedsInputs | modules/rag_pipeline.py:18-23 | the question always sits verbatim before the closing `\nAnswer:`; a non-blank context sits verbatim after the header |
| RagPipeline.NoIndexAsksBare | modules/rag_pipeline.py:16-18 | without indexed documents the question is asked bare |
| RagPipeline.RAGPipeline.constructor | modules/rag_pipeline.py:12-13 | the pipeline keeps its retriever |
| RagPipeline.RAGPipeline.AskQuestion | modules/rag_pipeline.py:15-26 | exactly one request, over the prompt for the top 3 passages, with 200 tokens; its reply is the model's answer, returned unchanged, and the record stays faithful |
| Reasoning.RunReasoning | modules/reasoning.py:12-22 | exactly two requests, in order: `(ChainOfThought(query), 250)`, then `(FinalAnswer(query, r1), 150)` where r1 is the first reply; the second reply is returned; both replies are the model's answers, and the record stays faithful |
| Reasoning.SecondPromptCarriesFirstReply | modules/reasoning.py:14-19 | the second prompt holds the first reply verbatim in its reasoning slot, and both prompts hold the same query verbatim |
| Reasoning.AnswerComesFromModel | modules/reasoning.py:15-22 | in a run the model answered, r1 is the model's answer to the chain-of-thought prompt, and the result is its answer to the final-answer prompt built from r1, given the first exchange |
| Refinement.RefineText | modules/refinement.py:9-15 | exactly one request, `(Refinement(text, instructions), 200)`; its reply is the model's answer, returned unchanged, and the record stays faithful |

## Left out

- `modules/text_generation.py`: the Hugging Face pipeline, its sampling parameters and its float arithmetic are not modelled. `generate_text` is an oracle that records each request and its reply. Nothing is assumed about the reply's content, for example whether it echoes the prompt. `Generate` always returns a reply: a request that fails and raises, which the pipelines would pass up with no partial result, is not modelled.
- `modules/retrieval.py`: document loading, embeddings and the Chroma similarity search are not modelled. A retriever is either unindexed or an arbitrary search function. Only `get_relevant_text`'s empty result and newline join are modelled.
- RagPipeline.RAGPipeline.constructor: the source builds its `LocalDocRetriever` inside `__init__`; here the retriever is passed in.
- `main.py` is not part of this model: it is argument parsing, dispatch and printing. Its `modules.summarization` import, at `main.py:9`, does not match the file `modules/summerization.py`; the file is modelled as it is.
- `modules/config.py` is not part of this model: it is an environment check that prints to the console.
- Summarization.Summarizer.SummarizeFile: `os.path.exists` and reading the file are inputs, an existence flag and the text. Encoding errors and unreadable files are not modelled.
- Summarization.SplitIntoChunks: a chunk size of 0 or less is admitted only for text with no words. On any other text the source's loop does not return. With size 0, `start` never advances. With a negative size, the first pass appends `" ".join(words[0:size])`. That is the first `len(words)+size` words when that number is positive, because Python reads a negative slice end from the end of the list, and `""` otherwise. Every later pass appends `""` while `start` falls, so the loop never reaches the end of the words.
- Text.Split: whitespace is the ASCII set that `str.isspace` accepts: space, `\t`, `\n`, `\v`, `\f`, `\r` and `\x1c` to `\x1f`. Unicode whitespace beyond ASCII is not modelled. `Text.Strip` uses the same set.
- Prompts.Format: templates are taken in their pre-parsed form. Parsing of `{{`, `}}`, format specs, conversions and attribute or index lookups is not modelled, because the five templates use none of them.
- `MultiStepReasoner` and `Refiner` hold no state, so their methods are module-level methods that take the completion service.
- Concurrent map requests: the per-chunk requests are independent and could be made concurrently, but the code makes them one after another, and the model follows the code.
