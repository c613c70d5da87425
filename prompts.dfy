/** The five prompt templates and how `str.format` fills them.

    A template is kept in the form `str.format` parses it into: literal text
    and named replacement fields, in order. Formatting replaces each field by
    its value in one left-to-right pass; the values are never scanned again,
    so a value that itself looks like `{query}` comes out literally. */
module Prompts {

  datatype Segment = Literal(text: string) | Field(name: string)

  type Template = seq<Segment>

  /** `str.format` raises `KeyError(name)` for a field it has no value for. */
  datatype Result = Success(value: string) | MissingField(name: string)

  /** `template.format(**fields)`: the first missing field, in template
      order, is the error; fields that the template does not use are ignored.
      A missing field is reported by name, like `KeyError`: it is one of the
      template's fields that has no value. */
  function Format(t: Template, fields: map<string, string>): (r: Result)
    ensures r.MissingField? ==> r.name in FieldNames(t) && r.name !in fields
    decreases |t|
  {
    if t == [] then Success("")
    else
      var head := match t[0]
        case Literal(s) => Success(s)
        case Field(n) => if n in fields then Success(fields[n]) else MissingField(n);
      if head.MissingField? then head
      else
        var tail := Format(t[1..], fields);
        if tail.MissingField? then tail else Success(head.value + tail.value)
  }

  /** The literal text a template contributes, whatever the fields hold. */
  function TextLength(t: Template): nat
    decreases |t|
  {
    if t == [] then 0
    else (if t[0].Literal? then |t[0].text| else 0) + TextLength(t[1..])
  }

  /** The names of the fields a template refers to. */
  function FieldNames(t: Template): set<string>
    decreases |t|
  {
    if t == [] then {}
    else (if t[0].Field? then {t[0].name} else {}) + FieldNames(t[1..])
  }

  /** Sum of the lengths of the values substituted into `t`'s fields. */
  function FieldLength(t: Template, fields: map<string, string>): nat
    requires FieldNames(t) <= fields.Keys
    decreases |t|
  {
    if t == [] then 0
    else
      (if t[0].Field? then assert t[0].name in FieldNames(t); |fields[t[0].name]| else 0)
      + FieldLength(t[1..], fields)
  }

  /** Formatting succeeds exactly when every field has a value, and then the
      output is as long as the literal text plus the substituted values:
      nothing is escaped, dropped or expanded twice. */
  lemma {:induction false} FormatSucceedsIffFieldsPresent(t: Template, fields: map<string, string>)
    ensures Format(t, fields).Success? <==> FieldNames(t) <= fields.Keys
    ensures Format(t, fields).Success? ==>
              |Format(t, fields).value| == TextLength(t) + FieldLength(t, fields)
    decreases |t|
  {
    if t != [] {
      FormatSucceedsIffFieldsPresent(t[1..], fields);
      if t[0].Field? && t[0].name !in fields {
        assert t[0].name in FieldNames(t);
      }
    }
  }

  // 1) chain_of_thought_template
  const CotIntro := "Break down the following query into a clear chain-of-thought:\nQuery: "
  const CotOutro := "\n\nChain-of-Thought:\n"
  const ChainOfThoughtTemplate: Template := [Literal(CotIntro), Field("query"), Literal(CotOutro)]

  // 2) final_answer_template
  const FinalIntro := "You have the following chain-of-thought:\n"
  const FinalMiddle := "\n\nNow, provide a concise final answer to the original query:\nQuery: "
  const FinalOutro := "\n\nFinal Answer:\n"
  const FinalAnswerTemplate: Template :=
    [Literal(FinalIntro), Field("reasoning"), Literal(FinalMiddle), Field("query"), Literal(FinalOutro)]

  // 3) chunk_summary_template
  const ChunkIntro := "Summarize the following text chunk in 1-2 sentences:\n---\n"
  const ChunkOutro := "\n---\nShort Summary:\n"
  const ChunkSummaryTemplate: Template := [Literal(ChunkIntro), Field("chunk_text"), Literal(ChunkOutro)]

  // 4) combine_summaries_template
  const CombineIntro := "Below are partial summaries from different chunks of a larger text:\n\n"
  const CombineOutro := "\n\nCombine these partial summaries into one coherent final summary:\n"
  const CombineSummariesTemplate: Template :=
    [Literal(CombineIntro), Field("partial_summaries"), Literal(CombineOutro)]

  // 5) refinement_template
  const RefineIntro := "You have the following text:\n---\n"
  const RefineMiddle := "\n---\nAnd these instructions for improvement:\n"
  const RefineOutro := "\n\nNow provide a refined version of the text that follows these instructions:\nRefined Text:\n"
  const RefinementTemplate: Template :=
    [Literal(RefineIntro), Field("original_text"), Literal(RefineMiddle), Field("instructions"), Literal(RefineOutro)]

  /** `chain_of_thought_template.format(query=query)`. */
  function ChainOfThought(query: string): (r: string)
    ensures |CotIntro| + |query| <= |r| && r[|CotIntro|..|CotIntro| + |query|] == query
  {
    CotIntro + (query + CotOutro)
  }

  /** `ChainOfThought` is what formatting its template with these fields gives. */
  lemma ChainOfThoughtFormats(query: string)
    ensures Format(ChainOfThoughtTemplate, map["query" := query])
            == Success(ChainOfThought(query))
  {
    var t, m := ChainOfThoughtTemplate, map["query" := query];
    assert t[1..][1..] == [Literal(CotOutro)] && t[1..][1..][1..] == [];
    assert Format(t[1..][1..], m) == Success(CotOutro);
    assert Format(t[1..], m) == Success(query + CotOutro);
  }

  /** `final_answer_template.format(query=query, reasoning=reasoning)`:
      the reasoning comes first, the query after it. */
  function FinalAnswer(query: string, reasoning: string): (r: string)
    ensures |FinalIntro| + |reasoning| <= |r| && r[|FinalIntro|..|FinalIntro| + |reasoning|] == reasoning
    ensures var q := |FinalIntro| + |reasoning| + |FinalMiddle|;
      q + |query| <= |r| && r[q..q + |query|] == query
  {
    FinalIntro + (reasoning + (FinalMiddle + (query + FinalOutro)))
  }

  /** `FinalAnswer` is what formatting its template with these fields gives. */
  lemma FinalAnswerFormats(query: string, reasoning: string)
    ensures Format(FinalAnswerTemplate, map["query" := query, "reasoning" := reasoning])
            == Success(FinalAnswer(query, reasoning))
  {
    var t, m := FinalAnswerTemplate, map["query" := query, "reasoning" := reasoning];
    var t1 := t[1..];
    var t2 := t1[1..];
    var t3 := t2[1..];
    var t4 := t3[1..];
    assert t4 == [Literal(FinalOutro)] && t4[1..] == [];
    assert Format(t4, m) == Success(FinalOutro);
    assert Format(t3, m) == Success(query + FinalOutro);
    assert Format(t2, m) == Success(FinalMiddle + (query + FinalOutro));
    assert Format(t1, m) == Success(reasoning + (FinalMiddle + (query + FinalOutro)));
  }

  /** `chunk_summary_template.format(chunk_text=chunk)`. */
  function ChunkSummary(chunk: string): (r: string)
    ensures |ChunkIntro| + |chunk| <= |r| && r[|ChunkIntro|..|ChunkIntro| + |chunk|] == chunk
  {
    ChunkIntro + (chunk + ChunkOutro)
  }

  /** `ChunkSummary` is what formatting its template with these fields gives. */
  lemma ChunkSummaryFormats(chunk: string)
    ensures Format(ChunkSummaryTemplate, map["chunk_text" := chunk])
            == Success(ChunkSummary(chunk))
  {
    var t, m := ChunkSummaryTemplate, map["chunk_text" := chunk];
    assert t[1..][1..] == [Literal(ChunkOutro)] && t[1..][1..][1..] == [];
    assert Format(t[1..][1..], m) == Success(ChunkOutro);
    assert Format(t[1..], m) == Success(chunk + ChunkOutro);
  }

  /** `combine_summaries_template.format(partial_summaries=partials)`. */
  function CombineSummaries(partials: string): (r: string)
    ensures |CombineIntro| + |partials| <= |r| && r[|CombineIntro|..|CombineIntro| + |partials|] == partials
  {
    CombineIntro + (partials + CombineOutro)
  }

  /** `CombineSummaries` is what formatting its template with these fields gives. */
  lemma CombineSummariesFormats(partials: string)
    ensures Format(CombineSummariesTemplate, map["partial_summaries" := partials])
            == Success(CombineSummaries(partials))
  {
    var t, m := CombineSummariesTemplate, map["partial_summaries" := partials];
    assert t[1..][1..] == [Literal(CombineOutro)] && t[1..][1..][1..] == [];
    assert Format(t[1..][1..], m) == Success(CombineOutro);
    assert Format(t[1..], m) == Success(partials + CombineOutro);
  }

  /** `refinement_template.format(original_text=text, instructions=instructions)`:
      the text first, between the `---` lines, then the instructions. */
  function Refinement(text: string, instructions: string): (r: string)
    ensures |RefineIntro| + |text| <= |r| && r[|RefineIntro|..|RefineIntro| + |text|] == text
    ensures var q := |RefineIntro| + |text| + |RefineMiddle|;
      q + |instructions| <= |r| && r[q..q + |instructions|] == instructions
  {
    RefineIntro + (text + (RefineMiddle + (instructions + RefineOutro)))
  }

  /** `Refinement` is what formatting its template with these fields gives. */
  lemma RefinementFormats(text: string, instructions: string)
    ensures Format(RefinementTemplate, map["original_text" := text, "instructions" := instructions])
            == Success(Refinement(text, instructions))
  {
    var t, m := RefinementTemplate, map["original_text" := text, "instructions" := instructions];
    var t1 := t[1..];
    var t2 := t1[1..];
    var t3 := t2[1..];
    var t4 := t3[1..];
    assert t4 == [Literal(RefineOutro)] && t4[1..] == [];
    assert Format(t4, m) == Success(RefineOutro);
    assert Format(t3, m) == Success(instructions + RefineOutro);
    assert Format(t2, m) == Success(RefineMiddle + (instructions + RefineOutro));
    assert Format(t1, m) == Success(text + (RefineMiddle + (instructions + RefineOutro)));
  }

  /** Substitution is a single pass: a query that itself reads `{query}`
      lands in the prompt as those seven characters. */
  lemma PlaceholderInValueStaysLiteral()
    ensures Format(ChainOfThoughtTemplate, map["query" := "{query}"])
            == Success(CotIntro + "{query}" + CotOutro)
  {
    ChainOfThoughtFormats("{query}");
  }

  // Each template fails with `KeyError` exactly when one of its own fields is absent.

  lemma ChainOfThoughtNeedsQuery(fields: map<string, string>)
    ensures Format(ChainOfThoughtTemplate, fields).Success? <==> "query" in fields
  {
    var t := ChainOfThoughtTemplate;
    assert t[1..][1..] == [Literal(CotOutro)] && t[1..][1..][1..] == [];
    assert FieldNames(t[1..][1..]) == {};
    assert FieldNames(t) == {"query"};
    FormatSucceedsIffFieldsPresent(t, fields);
  }

  lemma FinalAnswerNeedsQueryAndReasoning(fields: map<string, string>)
    ensures Format(FinalAnswerTemplate, fields).Success? <==> ("query" in fields && "reasoning" in fields)
  {
    var t := FinalAnswerTemplate;
    assert t[1..][1..][1..][1..] == [Literal(FinalOutro)] && t[1..][1..][1..][1..][1..] == [];
    assert FieldNames(t[1..][1..][1..][1..]) == {};
    assert FieldNames(t[1..][1..][1..]) == {"query"};
    assert FieldNames(t[1..]) == {"reasoning", "query"};
    assert FieldNames(t) == {"reasoning", "query"};
    FormatSucceedsIffFieldsPresent(t, fields);
  }

  lemma ChunkSummaryNeedsChunkText(fields: map<string, string>)
    ensures Format(ChunkSummaryTemplate, fields).Success? <==> "chunk_text" in fields
  {
    var t := ChunkSummaryTemplate;
    assert t[1..][1..] == [Literal(ChunkOutro)] && t[1..][1..][1..] == [];
    assert FieldNames(t[1..][1..]) == {};
    assert FieldNames(t) == {"chunk_text"};
    FormatSucceedsIffFieldsPresent(t, fields);
  }

  lemma CombineSummariesNeedsPartials(fields: map<string, string>)
    ensures Format(CombineSummariesTemplate, fields).Success? <==> "partial_summaries" in fields
  {
    var t := CombineSummariesTemplate;
    assert t[1..][1..] == [Literal(CombineOutro)] && t[1..][1..][1..] == [];
    assert FieldNames(t[1..][1..]) == {};
    assert FieldNames(t) == {"partial_summaries"};
    FormatSucceedsIffFieldsPresent(t, fields);
  }

  lemma RefinementNeedsTextAndInstructions(fields: map<string, string>)
    ensures Format(RefinementTemplate, fields).Success?
            <==> ("original_text" in fields && "instructions" in fields)
  {
    var t := RefinementTemplate;
    assert t[1..][1..][1..][1..] == [Literal(RefineOutro)] && t[1..][1..][1..][1..][1..] == [];
    assert FieldNames(t[1..][1..][1..][1..]) == {};
    assert FieldNames(t[1..][1..][1..]) == {"instructions"};
    assert FieldNames(t[1..]) == {"original_text", "instructions"};
    assert FieldNames(t) == {"original_text", "instructions"};
    FormatSucceedsIffFieldsPresent(t, fields);
  }
}
