/** The text-completion service, as an abstract oracle.

    The source's `generate_text(prompt, max_length)` runs a sampled language
    model. Here the model is an arbitrary function of everything asked so far
    and of the new request, so nothing is assumed about what it replies; the
    object records every request and its reply, in order, so that the
    pipelines can be specified by the calls they make. */
module Generation {

  /** One request to the completion service and the reply it produced. */
  datatype Exchange = Exchange(prompt: string, maxLength: int, reply: string)

  /** Every reply in `log` is what `model` answers to that request, given the
      exchanges before it and the exchanges in `before` ahead of it all. */
  ghost predicate Answered(model: (seq<Exchange>, string, int) -> string,
                           before: seq<Exchange>, log: seq<Exchange>)
  {
    forall i :: 0 <= i < |log| ==>
      log[i].reply == model(before + log[..i], log[i].prompt, log[i].maxLength)
  }

  /** Appending the model's own answer keeps a log answered. */
  lemma AnsweredAppend(model: (seq<Exchange>, string, int) -> string,
                       before: seq<Exchange>, log: seq<Exchange>, e: Exchange)
    requires Answered(model, before, log)
    requires e.reply == model(before + log, e.prompt, e.maxLength)
    ensures Answered(model, before, log + [e])
  {
    forall i | 0 <= i < |log| + 1
      ensures (log + [e])[i].reply == model(before + (log + [e])[..i], (log + [e])[i].prompt, (log + [e])[i].maxLength)
    {
      if i < |log| {
        assert (log + [e])[..i] == log[..i];
      } else {
        assert (log + [e])[..i] == log;
      }
    }
  }

  /** A log answered by the model splits into answered parts. */
  lemma AnsweredSplit(model: (seq<Exchange>, string, int) -> string,
                      before: seq<Exchange>, log: seq<Exchange>, n: nat)
    requires n <= |log| && Answered(model, before, log)
    ensures Answered(model, before, log[..n])
    ensures Answered(model, before + log[..n], log[n..])
  {
    forall i | 0 <= i < |log| - n
      ensures log[n..][i].reply == model(before + log[..n] + log[n..][..i], log[n..][i].prompt, log[n..][i].maxLength)
    {
      assert log[n..][i] == log[n + i];
      assert before + log[..n] + log[n..][..i] == before + log[..n + i];
    }
    forall i | 0 <= i < n
      ensures log[..n][i].reply == model(before + log[..n][..i], log[..n][i].prompt, log[..n][i].maxLength)
    {
      assert log[..n][..i] == log[..i];
    }
  }

  /** In a log the model answered from the start, what came after an
      earlier state of the log was answered given that state. */
  lemma AnsweredSince(model: (seq<Exchange>, string, int) -> string,
                      before: seq<Exchange>, log: seq<Exchange>)
    requires before <= log && Answered(model, [], log)
    ensures Answered(model, before, log[|before|..])
  {
    AnsweredSplit(model, [], log, |before|);
    assert [] + log[..|before|] == before;
  }

  class Completion {
    /** The reply to a request, given the earlier exchanges. */
    const model: (seq<Exchange>, string, int) -> string
    /** Every exchange so far, oldest first. */
    var calls: seq<Exchange>

    /** The record holds only what the model really answered. */
    ghost predicate Faithful()
      reads this
    {
      Answered(model, [], calls)
    }

    constructor (model: (seq<Exchange>, string, int) -> string)
      ensures this.model == model
      ensures calls == []
      ensures Faithful()
    {
      this.model := model;
      calls := [];
    }

    /** `generate_text(prompt, max_length)`: one request, logged with its reply. */
    method Generate(prompt: string, maxLength: int) returns (reply: string)
      requires Faithful()
      modifies this
      ensures reply == model(old(calls), prompt, maxLength)
      ensures calls == old(calls) + [Exchange(prompt, maxLength, reply)]
      ensures Faithful()
    {
      reply := model(calls, prompt, maxLength);
      var e := Exchange(prompt, maxLength, reply);
      assert [] + calls == calls;
      AnsweredAppend(model, [], calls, e);
      calls := calls + [e];
    }
  }
}
