/** The two collaborators the audit orchestrator consumes, reduced to what
    the orchestrator can observe of them: the rule retriever
    (src/tools/retriever.py) answers a topic with a list of passages or
    raises, and the compliance classifier (src/tools/classifier.py) answers
    a (rule, excerpt) pair with a parsed JSON object or raises. */
module Tools {
  import opened Wrappers

  /** The compliance levels allowed by the classifier's output schema. */
  datatype Status = Met | PartiallyMet | NotMet | Uncertain

  /** The literal the schema uses for each level. */
  function StatusText(s: Status): string {
    match s
    case Met => "Met"
    case PartiallyMet => "Partially Met"
    case NotMet => "Not Met"
    case Uncertain => "Uncertain"
  }

  /** Reads a status literal back; `None` for text outside the schema. */
  function ParseStatus(text: string): (r: Option<Status>)
    ensures r.Some? ==> StatusText(r.value) == text
    ensures r.None? ==> forall s: Status :: StatusText(s) != text
  {
    if text == "Met" then Some(Met)
    else if text == "Partially Met" then Some(PartiallyMet)
    else if text == "Not Met" then Some(NotMet)
    else if text == "Uncertain" then Some(Uncertain)
    else None
  }

  /** Distinct levels are written as distinct literals. */
  lemma StatusTextInjective(a: Status, b: Status)
    ensures StatusText(a) == StatusText(b) ==> a == b
  {
    if StatusText(a) == StatusText(b) {
      assert ParseStatus(StatusText(a)) == Some(a);
    }
  }

  /** Every level's literal reads back as that level. */
  lemma StatusRoundTrip(s: Status)
    ensures ParseStatus(StatusText(s)) == Some(s)
  {
    var r := ParseStatus(StatusText(s));
    if r.Some? {
      StatusTextInjective(r.value, s);
    }
  }

  /** The keys the orchestrator reads from the classifier's answer. */
  const STATUS_KEY: string := "compliance_status"
  const REASONING_KEY: string := "reasoning"
  const SUMMARY_KEY: string := "summary"

  /** What one call of the retriever yields: the page contents of the
      ranked passages (possibly none), or an exception. */
  datatype Retrieval = RetrieverRaised | Passages(pageContents: seq<string>)

  /** What one call of the classifier chain yields: the parsed JSON object
      (whatever keys the model produced), or an exception. */
  datatype Classification = ClassifierRaised | Parsed(fields: map<string, string>)

  /** The loaded collaborators: a retriever over topics and a classifier
      over (rule, report excerpt) pairs. */
  datatype Toolkit = Toolkit(
    retrieve: string -> Retrieval,
    classify: (string, string) -> Classification)

  /** The answer carries all three keys the orchestrator reads. */
  predicate Complete(fields: map<string, string>) {
    STATUS_KEY in fields && REASONING_KEY in fields && SUMMARY_KEY in fields
  }

  /** The answer conforms to the classifier's declared output schema:
      the three fields, with a status drawn from the four literals. */
  predicate FollowsSchema(fields: map<string, string>) {
    Complete(fields) && ParseStatus(fields[STATUS_KEY]).Some?
  }
}
