/** `generate_summary`: the external chat-completion call reduced to its
    outcome, and the mapping from that outcome to the summary string.  The
    mapping never raises: every failure becomes a marked error string. */
module Summarizer {
  import opened Results
  import opened Transcripts
  import PyText

  /** What the completion call produced: a response whose `choices` each carry
      a message content that may be `None`, or an exception the client raised
      (network, authentication, quota, malformed response, missing key). */
  datatype Completion =
    | Responded(choices: seq<Option<string>>)
    | Raised(error: PyError)

  /** The marker every degraded summary starts with. */
  const ErrorPrefix: string := "\U{274C} OpenAI API Error: "

  /** `response.choices[0].message.content`, or the exception reading it
      raises: an empty `choices` list fails to index, and a `None` content has
      no `strip`. */
  function Answer(c: Completion): (r: Result<string, PyError>)
    ensures r.Ok? <==> c.Responded? && |c.choices| > 0 && c.choices[0].Some?
    ensures r.Ok? ==> r.value == c.choices[0].value
  {
    match c
    case Raised(e) => Err(e)
    case Responded(choices) =>
      if |choices| == 0 then Err(IndexError("list index out of range"))
      else if choices[0].None? then Err(AttributeError("NoneType", "strip"))
      else Ok(choices[0].value)
  }

  /** The summary string for an outcome: the answer with surrounding
      whitespace removed, or the error marker followed by the reason. */
  function GenerateSummary(c: Completion): (summary: string)
    ensures Answer(c).Ok? ==> PyText.IsStripped(summary)
    ensures Answer(c).Ok? ==> summary == PyText.Strip(Answer(c).value)
    ensures Answer(c).Err? ==> summary == ErrorPrefix + Describe(Answer(c).error)
  {
    match Answer(c)
    case Ok(text) => PyText.Strip(text)
    case Err(e) => ErrorPrefix + Describe(e)
  }

  /** A successful answer is reported as exactly its text once surrounding
      whitespace is set aside. */
  lemma AnswerSummary(c: Completion, lead: string, text: string, trail: string)
    requires c.Responded? && |c.choices| > 0
    requires c.choices[0] == Some(lead + text + trail)
    requires PyText.AllSpace(lead) && PyText.AllSpace(trail)
    requires PyText.IsStripped(text)
    ensures GenerateSummary(c) == text
  {
    PyText.StripUnique(lead + text + trail, lead, text, trail);
  }

  /** Every failure of the call is absorbed: the summary carries the marker
      and the reason can be read back from behind it. */
  lemma FailureSummary(c: Completion)
    requires Answer(c).Err?
    ensures |GenerateSummary(c)| >= |ErrorPrefix|
    ensures GenerateSummary(c)[..|ErrorPrefix|] == ErrorPrefix
    ensures GenerateSummary(c)[|ErrorPrefix|..] == Describe(Answer(c).error)
  {
  }

  /** The marker tells degraded summaries apart only by convention: a model
      answer that itself starts with the marker reads the same as a failure. */
  lemma MarkerIsNotExclusive()
    ensures GenerateSummary(Responded([Some(ErrorPrefix + "timeout")]))
         == GenerateSummary(Raised(ClientError("timeout")))
  {
    var s := ErrorPrefix + "timeout";
    assert PyText.IsStripped(s);
    assert s == [] + s + [];
    PyText.StripUnique(s, [], s, []);
  }
}
