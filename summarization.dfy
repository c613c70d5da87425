/** Chunk-based map-reduce summarisation of a text file.

    The text is split into runs of at most `chunkSize` words; each run is
    summarised on its own (the map phase), and the stripped partial
    summaries, joined by newlines in chunk order, are summarised once more
    (the reduce phase). Whether the file exists and what it holds are
    inputs: the model does no file I/O. */
module Summarization {
  import opened Text
  import opened Prompts
  import opened Generation

  const DefaultChunkSize := 500
  /** `max_length` of each per-chunk request. */
  const ChunkMaxLength := 150
  /** `max_length` of the final combining request. */
  const CombineMaxLength := 200
  /** The soft failure returned for a path that does not exist. */
  const FileNotFound := "File not found."

  function Min(a: int, b: int): int {
    if a <= b then a else b
  }

  /** ceil(n / d) for a positive divisor. */
  function CeilDiv(n: nat, d: nat): nat
    requires d > 0
  {
    (n + d - 1) / d
  }

  /** The word groups `_split_into_chunks` forms: `size` consecutive words
      at a time, the remainder in a last, shorter group. */
  function Chunks(words: seq<string>, size: int): seq<seq<string>>
    requires size > 0 || words == []
    decreases |words|
  {
    if words == [] then []
    else if |words| <= size then [words]
    else [words[..size]] + Chunks(words[size..], size)
  }

  /** All groups, concatenated in order. */
  function Flatten(groups: seq<seq<string>>): seq<string>
    decreases |groups|
  {
    if groups == [] then [] else groups[0] + Flatten(groups[1..])
  }

  /** `" ".join(group)` for every group. */
  function JoinEach(groups: seq<seq<string>>): seq<string> {
    seq(|groups|, i requires 0 <= i < |groups| => Join(" ", groups[i]))
  }

  /** `chunk.split()` for every chunk. */
  function WordsOf(chunks: seq<string>): seq<seq<string>> {
    seq(|chunks|, i requires 0 <= i < |chunks| => Split(chunks[i]))
  }

  /** What `_split_into_chunks(text, size)` returns. A size that is not
      positive is only admitted for text without words: on any other text
      the source's loop never reaches the end of the words. */
  function ChunkTexts(text: string, size: int): seq<string>
    requires size > 0 || Blank(text)
  {
    JoinEach(Chunks(Split(text), size))
  }

  lemma FlattenAppend(groups: seq<seq<string>>, g: seq<string>)
    ensures Flatten(groups + [g]) == Flatten(groups) + g
    decreases |groups|
  {
    if groups == [] {
      assert [] + [g] == [g];
    } else {
      assert (groups + [g])[1..] == groups[1..] + [g];
      FlattenAppend(groups[1..], g);
    }
  }

  /** No word is lost, repeated or moved: the groups spell out the words. */
  lemma {:induction false} ChunksFlatten(words: seq<string>, size: int)
    requires size > 0 || words == []
    ensures Flatten(Chunks(words, size)) == words
    decreases |words|
  {
    if words != [] && |words| > size {
      var c := Chunks(words, size);
      assert c[1..] == Chunks(words[size..], size);
      ChunksFlatten(words[size..], size);
      assert words == words[..size] + words[size..];
    }
  }

  lemma MulAtLeast(d: int, k: int)
    requires d > 0 && k >= 1
    ensures d * k >= d
  {
  }

  /** Integer division is determined by its bounds. */
  lemma DivUnique(x: int, d: int, q: int)
    requires d > 0 && d * q <= x < d * q + d
    ensures x / d == q
  {
    var q' := x / d;
    assert d * q' <= x < d * q' + d;
    if q' > q { MulAtLeast(d, q' - q); }
    if q' < q { MulAtLeast(d, q - q'); }
  }

  lemma CeilDivStep(n: nat, d: nat)
    requires d > 0 && n > d
    ensures CeilDiv(n, d) == 1 + CeilDiv(n - d, d)
  {
    var q := (n - 1) / d;
    assert d * (q + 1) == d * q + d;
    DivUnique(n - 1 + d, d, q + 1);
  }

  lemma CeilDivOne(n: nat, d: nat)
    requires 0 < n <= d
    ensures CeilDiv(n, d) == 1
  {
    DivUnique(n + d - 1, d, 1);
  }

  /** There are ceil(W / size) groups for W words. */
  lemma {:induction false} ChunkCount(words: seq<string>, size: int)
    requires size > 0
    ensures |Chunks(words, size)| == CeilDiv(|words|, size)
    decreases |words|
  {
    if words == [] {
    } else if |words| <= size {
      CeilDivOne(|words|, size);
    } else {
      ChunkCount(words[size..], size);
      CeilDivStep(|words|, size);
    }
  }

  /** Every group but the last holds exactly `size` words; the last holds
      between 1 and `size`. */
  lemma {:induction false} ChunkSizes(words: seq<string>, size: int)
    requires size > 0
    ensures var c := Chunks(words, size);
      (forall i :: 0 <= i < |c| - 1 ==> |c[i]| == size)
      && (c != [] ==> 1 <= |c[|c| - 1]| <= size)
    decreases |words|
  {
    if words != [] && |words| > size {
      var c := Chunks(words, size);
      var rest := Chunks(words[size..], size);
      ChunkSizes(words[size..], size);
      assert c == [words[..size]] + rest;
      assert rest != [];
      forall i | 0 < i < |c| - 1 ensures |c[i]| == size {
        assert c[i] == rest[i - 1];
      }
      assert c[|c| - 1] == rest[|rest| - 1];
    }
  }

  /** Every word of a group is one of the input words. */
  lemma {:induction false} ChunksDrawFromWords(words: seq<string>, size: int)
    requires size > 0 || words == []
    ensures forall i, w :: 0 <= i < |Chunks(words, size)| && w in Chunks(words, size)[i] ==> w in words
    decreases |words|
  {
    if words != [] && |words| > size {
      var c := Chunks(words, size);
      ChunksDrawFromWords(words[size..], size);
      forall i, w | 0 <= i < |c| && w in c[i] ensures w in words {
        if i == 0 {
          assert w in words[..size];
        } else {
          assert c[i] == Chunks(words[size..], size)[i - 1];
          assert w in words[size..];
        }
      }
    }
  }

  /** Splitting a chunk string gives back its group of words. */
  lemma SplitChunkText(text: string, size: int, i: int)
    requires size > 0 || Blank(text)
    requires 0 <= i < |ChunkTexts(text, size)|
    ensures Split(ChunkTexts(text, size)[i]) == Chunks(Split(text), size)[i]
  {
    var c := Chunks(Split(text), size);
    ChunksDrawFromWords(Split(text), size);
    assert AllWords(c[i]);
    SplitJoin(c[i]);
  }

  /** Splitting each chunk string gives back the word groups. */
  lemma WordsOfChunkTexts(text: string, size: int)
    requires size > 0 || Blank(text)
    ensures WordsOf(ChunkTexts(text, size)) == Chunks(Split(text), size)
  {
    var chunks := ChunkTexts(text, size);
    forall i | 0 <= i < |chunks| ensures WordsOf(chunks)[i] == Chunks(Split(text), size)[i] {
      SplitChunkText(text, size, i);
    }
  }

  /** `_split_into_chunks` conserves the words: splitting the chunks again and
      concatenating them gives exactly `text.split()`. */
  lemma ChunkTextsConserveWords(text: string, size: int)
    requires size > 0 || Blank(text)
    ensures Flatten(WordsOf(ChunkTexts(text, size))) == Split(text)
  {
    WordsOfChunkTexts(text, size);
    ChunksFlatten(Split(text), size);
  }

  /** Text without words, and only such text, gives no chunks. */
  lemma BlankTextNoChunks(text: string, size: int)
    requires size > 0 || Blank(text)
    ensures ChunkTexts(text, size) == [] <==> Blank(text)
  {
    if !Blank(text) {
      assert Chunks(Split(text), size) != [];
    }
  }

  /** `_split_into_chunks` makes ceil(W / size) chunks of a text of W words. */
  lemma ChunkTextsCount(text: string, size: int)
    requires size > 0
    ensures |ChunkTexts(text, size)| == CeilDiv(|Split(text)|, size)
  {
    ChunkCount(Split(text), size);
  }

  /** Every chunk but the last holds exactly `size` words, the last between
      1 and `size`. */
  lemma ChunkTextsSizes(text: string, size: int)
    requires size > 0
    ensures var chunks := ChunkTexts(text, size);
      && (forall i :: 0 <= i < |chunks| - 1 ==> |Split(chunks[i])| == size)
      && (chunks != [] ==> 1 <= |Split(chunks[|chunks| - 1])| <= size)
  {
    var chunks := ChunkTexts(text, size);
    WordsOfChunkTexts(text, size);
    ChunkSizes(Split(text), size);
    assert forall i :: 0 <= i < |chunks| ==> Split(chunks[i]) == WordsOf(chunks)[i];
  }

  /** One step of the chunk loop: the next group runs from `start` to
      `min(start + size, len(words))`. */
  lemma ChunksStep(words: seq<string>, start: int, size: int)
    requires 0 <= start < |words| && size > 0
    ensures var end := Min(start + size, |words|);
      JoinEach(Chunks(words[start..], size))
      == [Join(" ", words[start..end])] + JoinEach(Chunks(words[end..], size))
  {
    var end := Min(start + size, |words|);
    var rest := words[start..];
    var group := words[start..end];
    assert Chunks(rest, size) == [group] + Chunks(words[end..], size) by {
      if |rest| > size {
        assert rest[..size] == group && rest[size..] == words[end..];
      } else {
        assert group == rest && words[end..] == [];
      }
    }
  }

  /** One step of the chunk loop keeps the chunks so far covering exactly
      the words before `start`. */
  lemma CoverStep(chunks: seq<string>, words: seq<string>, start: int, end: int)
    requires AllWords(words) && 0 <= start <= end <= |words|
    requires Flatten(WordsOf(chunks)) == words[..start]
    ensures Flatten(WordsOf(chunks + [Join(" ", words[start..end])])) == words[..end]
  {
    var group := words[start..end];
    assert AllWords(group) by {
      forall w | w in group ensures IsWord(w) { assert w in words; }
    }
    SplitJoin(group);
    assert WordsOf(chunks + [Join(" ", group)]) == WordsOf(chunks) + [group];
    FlattenAppend(WordsOf(chunks), group);
    assert words[..start] + group == words[..end];
  }

  /** One pass of the chunk loop: appending the next group keeps both the
      chunks still to come and the words covered so far in step. */
  lemma ChunkLoopStep(words: seq<string>, size: int, done: seq<string>, start: int)
    requires AllWords(words) && size > 0 && 0 <= start < |words|
    requires Flatten(WordsOf(done)) == words[..start]
    ensures var end := Min(start + size, |words|);
      var next := done + [Join(" ", words[start..end])];
      Flatten(WordsOf(next)) == words[..end]
      && done + JoinEach(Chunks(words[start..], size)) == next + JoinEach(Chunks(words[end..], size))
  {
    var end := Min(start + size, |words|);
    var chunk := Join(" ", words[start..end]);
    ChunksStep(words, start, size);
    CoverStep(done, words, start, end);
    assert done + ([chunk] + JoinEach(Chunks(words[end..], size)))
           == (done + [chunk]) + JoinEach(Chunks(words[end..], size));
  }

  /** `_split_into_chunks(text, size)`: walks the word list `size` words at
      a time and joins each run with single spaces. */
  method SplitIntoChunks(text: string, size: int) returns (chunks: seq<string>)
    requires size > 0 || Blank(text)
    ensures chunks == ChunkTexts(text, size)
    ensures Flatten(WordsOf(chunks)) == Split(text)
  {
    var words := Split(text);
    chunks := [];
    var start := 0;
    assert words[start..] == words;
    while start < |words|
      invariant 0 <= start <= |words|
      invariant JoinEach(Chunks(words, size)) == chunks + JoinEach(Chunks(words[start..], size))
      invariant Flatten(WordsOf(chunks)) == words[..start]
      decreases |words| - start
    {
      var end := Min(start + size, |words|);
      ChunkLoopStep(words, size, chunks, start);
      chunks := chunks + [Join(" ", words[start..end])];
      start := end;
    }
    assert words[start..] == [] && words[..start] == words;
  }

  /** `chunk_summaries`: the replies of the map phase, each stripped. */
  function PartialSummaries(log: seq<Exchange>): (partials: seq<string>)
    ensures |partials| == |log|
    ensures forall i :: 0 <= i < |log| ==> partials[i] == Strip(log[i].reply)
    decreases |log|
  {
    if log == [] then [] else PartialSummaries(log[..|log| - 1]) + [Strip(log[|log| - 1].reply)]
  }

  /** The requests `summarize_file` makes for the chunks `chunks`, in order:
      one chunk-summary request per chunk, then one combining request over
      the stripped partial summaries joined by newlines, whose reply is the
      result. */
  ghost predicate IsSummaryRun(chunks: seq<string>, log: seq<Exchange>, summary: string) {
    |log| == |chunks| + 1
    && (forall i :: 0 <= i < |chunks| ==>
          log[i].prompt == ChunkSummary(chunks[i]) && log[i].maxLength == ChunkMaxLength)
    && log[|chunks|].prompt == CombineSummaries(Join("\n", PartialSummaries(log[..|chunks|])))
    && log[|chunks|].maxLength == CombineMaxLength
    && summary == log[|chunks|].reply
  }

  /** Appending an exchange appends its stripped reply. */
  lemma PartialSummariesAppend(log: seq<Exchange>, e: Exchange)
    ensures PartialSummaries(log + [e]) == PartialSummaries(log) + [Strip(e.reply)]
  {
    assert (log + [e])[..|log|] == log;
  }

  /** `log` is the map phase over `chunks`: one chunk-summary request per
      chunk, in order. */
  ghost predicate MapsChunks(chunks: seq<string>, log: seq<Exchange>) {
    |log| == |chunks|
    && forall j :: 0 <= j < |chunks| ==>
         log[j].prompt == ChunkSummary(chunks[j]) && log[j].maxLength == ChunkMaxLength
  }

  /** One more chunk-summary request extends the map phase by one chunk,
      and its stripped reply extends the partial summaries. */
  lemma MapStep(chunks: seq<string>, i: nat, log: seq<Exchange>, partials: seq<string>, e: Exchange)
    requires i < |chunks| && MapsChunks(chunks[..i], log) && partials == PartialSummaries(log)
    requires e.prompt == ChunkSummary(chunks[i]) && e.maxLength == ChunkMaxLength
    ensures MapsChunks(chunks[..i + 1], log + [e])
    ensures partials + [Strip(e.reply)] == PartialSummaries(log + [e])
  {
    PartialSummariesAppend(log, e);
  }

  /** The loop of `summarize_file` over the chunks: one chunk-summary
      request of at most 150 tokens per chunk, in order, keeping each
      reply stripped. `mapped` is the part of the transcript it adds. */
  method SummarizeChunks(llm: Completion, chunks: seq<string>)
    returns (partials: seq<string>, ghost mapped: seq<Exchange>)
    requires llm.Faithful()
    modifies llm
    ensures llm.Faithful()
    ensures llm.calls == old(llm.calls) + mapped
    ensures MapsChunks(chunks, mapped)
    ensures partials == PartialSummaries(mapped)
  {
    mapped := [];
    partials := [];
    for i := 0 to |chunks|
      invariant llm.Faithful()
      invariant llm.calls == old(llm.calls) + mapped
      invariant MapsChunks(chunks[..i], mapped)
      invariant partials == PartialSummaries(mapped)
    {
      var prompt := ChunkSummary(chunks[i]);
      var reply := llm.Generate(prompt, ChunkMaxLength);
      ghost var e := Exchange(prompt, ChunkMaxLength, reply);
      MapStep(chunks, i, mapped, partials, e);
      assert old(llm.calls) + mapped + [e] == old(llm.calls) + (mapped + [e]);
      mapped := mapped + [e];
      partials := partials + [Strip(reply)];
    }
    assert chunks[..|chunks|] == chunks;
  }

  /** The map phase followed by the combining request over its stripped
      replies make a summary run, recorded after whatever came before. */
  lemma SummaryRunIntro(chunks: seq<string>, before: seq<Exchange>, mapped: seq<Exchange>,
                        partials: seq<string>, e: Exchange, after: seq<Exchange>)
    requires MapsChunks(chunks, mapped) && partials == PartialSummaries(mapped)
    requires e.prompt == CombineSummaries(Join("\n", partials))
    requires e.maxLength == CombineMaxLength
    requires after == before + mapped + [e]
    ensures before <= after
    ensures IsSummaryRun(chunks, after[|before|..], e.reply)
  {
    TranscriptSuffix(before, mapped, e);
    var run := after[|before|..];
    assert run[..|chunks|] == mapped;
    assert run[|chunks|] == e;
    assert forall i :: 0 <= i < |chunks| ==> run[i] == mapped[i];
  }

  /** Cutting off what came before the run leaves the run's own requests. */
  lemma TranscriptSuffix(before: seq<Exchange>, mapped: seq<Exchange>, e: Exchange)
    ensures before <= before + mapped + [e]
    ensures (before + mapped + [e])[|before|..] == mapped + [e]
    ensures (mapped + [e])[..|mapped|] == mapped
  {
  }

  /** When the model answered the run, each partial summary comes from the
      model's reply to its chunk's prompt, and the result is the model's
      reply to the combining prompt, returned unchanged. */
  lemma SummaryComesFromModel(model: (seq<Exchange>, string, int) -> string, before: seq<Exchange>,
                              chunks: seq<string>, log: seq<Exchange>, summary: string)
    requires IsSummaryRun(chunks, log, summary) && Answered(model, before, log)
    ensures forall i :: 0 <= i < |chunks| ==>
              log[i].reply == model(before + log[..i], ChunkSummary(chunks[i]), ChunkMaxLength)
    ensures summary == model(before + log[..|chunks|],
                             CombineSummaries(Join("\n", PartialSummaries(log[..|chunks|]))),
                             CombineMaxLength)
  {
  }

  /** A summary of a file with W words makes ceil(W / size) + 1 requests. */
  lemma SummaryCallCount(text: string, size: int, log: seq<Exchange>, summary: string)
    requires size > 0
    requires IsSummaryRun(ChunkTexts(text, size), log, summary)
    ensures |log| == CeilDiv(|Split(text)|, size) + 1
  {
    ChunkCount(Split(text), size);
  }

  /** An empty or blank file still makes the combining request, once, over
      an empty list of partial summaries. */
  lemma BlankFileSummary(text: string, size: int, log: seq<Exchange>, summary: string)
    requires Blank(text)
    requires IsSummaryRun(ChunkTexts(text, size), log, summary)
    ensures |log| == 1
    ensures log[0] == Exchange(CombineSummaries(""), CombineMaxLength, summary)
  {
    assert ChunkTexts(text, size) == [];
  }

  /** 1200 words with the default chunk size of 500: three chunk-summary
      requests of 500, 500 and 200 words, then the combining request. */
  lemma TwelveHundredWords(text: string, log: seq<Exchange>, summary: string)
    requires |Split(text)| == 1200
    requires IsSummaryRun(ChunkTexts(text, DefaultChunkSize), log, summary)
    ensures |log| == 4
    ensures |Split(ChunkTexts(text, DefaultChunkSize)[0])| == 500
    ensures |Split(ChunkTexts(text, DefaultChunkSize)[2])| == 200
  {
    var words := Split(text);
    var c := Chunks(words, DefaultChunkSize);
    ChunkCount(words, DefaultChunkSize);
    assert c == [words[..500]] + Chunks(words[500..], 500);
    assert Chunks(words[500..], 500) == [words[500..][..500]] + Chunks(words[500..][500..], 500);
    assert c[2] == words[500..][500..];
    SplitChunkText(text, DefaultChunkSize, 0);
    SplitChunkText(text, DefaultChunkSize, 2);
  }

  class Summarizer {
    const chunkSize: int

    constructor (chunkSize: int := DefaultChunkSize)
      ensures this.chunkSize == chunkSize
    {
      this.chunkSize := chunkSize;
    }

    /** `summarize_file`: `fileExists` and `text` stand for
        `os.path.exists(filepath)` and the file's contents. */
    method SummarizeFile(llm: Completion, fileExists: bool, text: string) returns (summary: string)
      requires fileExists ==> chunkSize > 0 || Blank(text)
      requires llm.Faithful()
      modifies llm
      ensures llm.Faithful() && old(llm.calls) <= llm.calls
      ensures Answered(llm.model, old(llm.calls), llm.calls[|old(llm.calls)|..])
      ensures !fileExists ==> summary == FileNotFound && llm.calls == old(llm.calls)
      ensures fileExists ==>
                IsSummaryRun(ChunkTexts(text, chunkSize), llm.calls[|old(llm.calls)|..], summary)
    {
      if !fileExists {
        assert llm.calls[|old(llm.calls)|..] == [];
        return FileNotFound;
      }
      var chunks := SplitIntoChunks(text, chunkSize);
      var partials, mapped := SummarizeChunks(llm, chunks);
      summary := llm.Generate(CombineSummaries(Join("\n", partials)), CombineMaxLength);
      SummaryRunIntro(chunks, old(llm.calls), mapped, partials,
                      Exchange(CombineSummaries(Join("\n", partials)), CombineMaxLength, summary), llm.calls);
      AnsweredSince(llm.model, old(llm.calls), llm.calls);
    }
  }
}
