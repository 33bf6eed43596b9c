/** The regulations tool's handling of a retrieve-and-generate response:
    the answer text, the flattened citation list and the success and error
    records. The backend call itself is an input: what the knowledge base
    answered, or the exception it raised. */
module Regulations {

  import opened Values

  /** One retrieved reference; a key absent from the backend's dict is `None`. */
  datatype RetrievedReference = RetrievedReference(text: Option<string>, location: Option<Value>, metadata: Option<Value>)

  /** One citation; an absent `retrievedReferences` key is the empty list. */
  datatype Citation = Citation(references: seq<RetrievedReference>)

  /** The backend's answer; an absent `citations` key is the empty list. */
  datatype BackendResponse = BackendResponse(outputText: Option<string>, citations: seq<Citation>)

  /** What the backend call did: answer, raise a `ClientError` (with the
      optional code and message of its error body, and its `str`), or raise
      anything else (with its `str`). */
  datatype BackendCall =
    | Answered(response: BackendResponse)
    | ClientError(code: Option<string>, message: Option<string>, text: string)
    | OtherError(text: string)

  const DefaultNumResults := 5
  const NoAnswerText := "No answer generated"
  const ClientErrorPrefix := "Bedrock API error: "
  const OtherErrorPrefix := "Unexpected error: "

  function StringOr(o: Option<string>, default: string): string
  {
    if o.Some? then o.value else default
  }

  function ValueOr(o: Option<Value>, default: Value): Value
  {
    if o.Some? then o.value else default
  }

  /** The entry recorded for one retrieved reference. */
  function CitationEntry(ref: RetrievedReference): Value
  {
    Dict(map[
      "content" := Str(StringOr(ref.text, "")),
      "location" := ValueOr(ref.location, EmptyDict),
      "metadata" := ValueOr(ref.metadata, EmptyDict)])
  }

  /** The entries of one citation's references, in order. */
  function Entries(refs: seq<RetrievedReference>): (es: seq<Value>)
    ensures |es| == |refs|
    ensures forall j :: 0 <= j < |refs| ==> es[j] == CitationEntry(refs[j])
  {
    seq(|refs|, j requires 0 <= j < |refs| => CitationEntry(refs[j]))
  }

  /** How many references the citations hold in all. */
  function TotalReferences(cs: seq<Citation>): nat
  {
    if |cs| == 0 then 0 else |cs[0].references| + TotalReferences(cs[1..])
  }

  /** The flattened citation list: every reference of every citation, citation by citation. */
  function FlattenCitations(cs: seq<Citation>): (out: seq<Value>)
    ensures |out| == TotalReferences(cs)
  {
    if |cs| == 0 then [] else Entries(cs[0].references) + FlattenCitations(cs[1..])
  }

  /** Flattening distributes over concatenation of citation lists. */
  lemma {:induction false} FlattenAppend(a: seq<Citation>, b: seq<Citation>)
    ensures FlattenCitations(a + b) == FlattenCitations(a) + FlattenCitations(b)
    decreases |a|
  {
    if |a| > 0 {
      assert (a + b)[1..] == a[1..] + b;
      FlattenAppend(a[1..], b);
    } else {
      assert a + b == b;
    }
  }

  /** One entry per retrieved reference, in original order: reference `j` of
      citation `i` lands right after the references of the citations before it. */
  lemma {:induction false} FlattenPositions(cs: seq<Citation>, i: int, j: int)
    requires 0 <= i < |cs| && 0 <= j < |cs[i].references|
    ensures TotalReferences(cs[..i]) + j < |FlattenCitations(cs)|
    ensures FlattenCitations(cs)[TotalReferences(cs[..i]) + j] == CitationEntry(cs[i].references[j])
    decreases i
  {
    if i == 0 {
      assert cs[..0] == [];
    } else {
      assert cs[1..][..i - 1] == cs[1..i];
      assert cs[..i][1..] == cs[1..i];
      assert TotalReferences(cs[..i]) == |cs[0].references| + TotalReferences(cs[1..i]);
      assert FlattenCitations(cs) == Entries(cs[0].references) + FlattenCitations(cs[1..]);
      FlattenPositions(cs[1..], i - 1, j);
    }
  }

  /** The nested loop over `citations` and their `retrievedReferences`. */
  method CollectCitations(cs: seq<Citation>) returns (out: seq<Value>)
    ensures out == FlattenCitations(cs)
    ensures |out| == TotalReferences(cs)
  {
    out := [];
    var i := 0;
    while i < |cs|
      invariant 0 <= i <= |cs|
      invariant out == FlattenCitations(cs[..i])
    {
      var refs := cs[i].references;
      var j := 0;
      ghost var before := out;
      while j < |refs|
        invariant 0 <= j <= |refs|
        invariant out == before + Entries(refs[..j])
      {
        assert Entries(refs[..j + 1]) == Entries(refs[..j]) + [CitationEntry(refs[j])];
        out := out + [CitationEntry(refs[j])];
        j := j + 1;
      }
      assert refs[..j] == refs;
      assert FlattenCitations([cs[i]]) == Entries(refs);
      FlattenAppend(cs[..i], [cs[i]]);
      assert cs[..i + 1] == cs[..i] + [cs[i]];
      i := i + 1;
    }
    assert cs[..i] == cs;
  }

  /** The record `query_regulations` returns for one backend call. On an
      answer it is a `text` record with status `success` that carries the
      answer (or `NoAnswerText`) and one citation entry per retrieved
      reference and echoes the question and `numResults`; on a `ClientError`
      or any other exception it is an `error` record that echoes the question. */
  function QueryRegulations(question: string, numResults: int, model: string, call: BackendCall): (r: map<string, Value>)
    ensures "type" in r && "content" in r && "metadata" in r && r["metadata"].Dict?
    ensures Has(r, "type", Str("text")) <==> call.Answered?
    ensures Has(r, "type", Str("text")) || Has(r, "type", Str("error"))
    ensures Has(r["metadata"].fields, "status", Str(if call.Answered? then "success" else "error"))
    ensures Has(r["metadata"].fields, "question", Str(question))
    ensures call.Answered? ==>
      && Has(r, "content", Str(StringOr(call.response.outputText, NoAnswerText)))
      && Has(r["metadata"].fields, "num_results", Int(numResults))
      && Has(r["metadata"].fields, "citations", List(FlattenCitations(call.response.citations)))
    ensures call.ClientError? ==>
      && Has(r, "content", Str(ClientErrorPrefix + StringOr(call.message, call.text)))
      && Has(r["metadata"].fields, "error_code", Str(StringOr(call.code, "Unknown")))
      && Has(r["metadata"].fields, "error_message", Str(StringOr(call.message, call.text)))
    ensures call.OtherError? ==>
      && Has(r, "content", Str(OtherErrorPrefix + call.text))
      && Has(r["metadata"].fields, "error", Str(call.text))
  {
    match call
    case Answered(resp) =>
      map[
        "type" := Str("text"),
        "content" := Str(StringOr(resp.outputText, NoAnswerText)),
        "metadata" := Dict(map[
          "status" := Str("success"),
          "question" := Str(question),
          "citations" := List(FlattenCitations(resp.citations)),
          "num_results" := Int(numResults),
          "model" := Str(model)])]
    case ClientError(code, message, text) =>
      var msg := StringOr(message, text);
      map[
        "type" := Str("error"),
        "content" := Str(ClientErrorPrefix + msg),
        "metadata" := Dict(map[
          "status" := Str("error"),
          "error_code" := Str(StringOr(code, "Unknown")),
          "error_message" := Str(msg),
          "question" := Str(question)])]
    case OtherError(text) =>
      map[
        "type" := Str("error"),
        "content" := Str(OtherErrorPrefix + text),
        "metadata" := Dict(map[
          "status" := Str("error"),
          "error" := Str(text),
          "question" := Str(question)])]
  }

  // ---------------------------------------------------------------------
  // The retry decorator
  // ---------------------------------------------------------------------

  /** The decorator stops after this many attempts. */
  const MaxAttempts := 3

  /** What one run of the decorated body does: return a record, or let a
      `ClientError` escape (the only exception the decorator retries). */
  datatype Attempt = Completed(record: map<string, Value>) | ClientErrorEscaped

  datatype RetryResult = Returned(record: map<string, Value>, attempts: nat) | GaveUp(attempts: nat)

  /** The retry decorator, given what each of the `MaxAttempts` attempts
      would do, from attempt `made` on: it returns the record of the first
      attempt that completes, retrying while a `ClientError` escapes, and
      re-raises once all `MaxAttempts` attempts have failed. */
  function Retry(outcomes: seq<Attempt>, made: nat): (r: RetryResult)
    requires made < MaxAttempts <= |outcomes|
    ensures made < r.attempts <= MaxAttempts
    ensures r.Returned? ==> outcomes[r.attempts - 1] == Completed(r.record)
    ensures forall k | made <= k < r.attempts - 1 :: outcomes[k] == ClientErrorEscaped
    ensures r.GaveUp? <==> forall k | made <= k < MaxAttempts :: outcomes[k] == ClientErrorEscaped
    ensures r.GaveUp? ==> r.attempts == MaxAttempts
    decreases MaxAttempts - made
  {
    match outcomes[made]
    case Completed(rec) => Returned(rec, made + 1)
    case ClientErrorEscaped =>
      if made + 1 < MaxAttempts then Retry(outcomes, made + 1)
      else GaveUp(made + 1)
  }

  /** Two throttled attempts and then a success: the third attempt's record
      is returned. */
  lemma RetryThenSucceed(rec: map<string, Value>)
    ensures Retry([ClientErrorEscaped, ClientErrorEscaped, Completed(rec)], 0) == Returned(rec, 3)
  {
  }

  /** One run of `query_regulations`'s body: it catches every exception of the
      backend call, so nothing escapes to the decorator. */
  function BodyAttempt(question: string, numResults: int, model: string, call: BackendCall): Attempt
  {
    Completed(QueryRegulations(question, numResults, model, call))
  }

  /** The decorator never retries: whatever the backend does, each query makes
      exactly one backend call and returns the body's record. */
  lemma OneBackendCallPerQuery(question: string, numResults: int, model: string, calls: seq<BackendCall>)
    requires |calls| >= MaxAttempts
    ensures Retry(seq(|calls|, i requires 0 <= i < |calls| => BodyAttempt(question, numResults, model, calls[i])), 0)
      == Returned(QueryRegulations(question, numResults, model, calls[0]), 1)
  {
  }
}
