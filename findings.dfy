/** One topic's trip through the collaborators (the try block of
    process_topic in src/agent.py) and the two fixed templates a finding
    is written in. */
module Findings {
  import opened Wrappers
  import opened Tools

  /** Why a topic could not be judged. The orchestrator catches every one
      of these the same way; the cause is kept only to name it. */
  datatype Cause =
    | ToolsNotLoaded          // retriever/classifier are None after a failed load
    | RetrieverFailed         // the retriever raised
    | NoPassages              // the retriever returned [], so [0] raised
    | ClassifierFailed        // the classifier chain raised
    | MissingKey(key: string) // the parsed answer lacks a key that is read

  /** The per-topic outcome of the collaborators. */
  datatype Outcome =
    | Success(rule: string, status: string, reasoning: string, summary: string)
    | Failure(cause: Cause)

  /** Runs one topic through the retriever and the classifier, in the
      order the source does: retrieve, take the first passage, classify it
      against the report excerpt, then read status, reasoning and summary. */
  function Attempt(tools: Option<Toolkit>, topic: string, excerpt: string): Outcome {
    match tools
    case None => Failure(ToolsNotLoaded)
    case Some(t) =>
      match t.retrieve(topic)
      case RetrieverRaised => Failure(RetrieverFailed)
      case Passages(docs) =>
        if |docs| == 0 then Failure(NoPassages)
        else
          match t.classify(docs[0], excerpt)
          case ClassifierRaised => Failure(ClassifierFailed)
          case Parsed(fields) =>
            if STATUS_KEY !in fields then Failure(MissingKey(STATUS_KEY))
            else if REASONING_KEY !in fields then Failure(MissingKey(REASONING_KEY))
            else if SUMMARY_KEY !in fields then Failure(MissingKey(SUMMARY_KEY))
            else Success(docs[0], fields[STATUS_KEY], fields[REASONING_KEY], fields[SUMMARY_KEY])
  }

  // The success template, piece by piece.
  const TOPIC_LABEL: string := "**Topic:** '"
  const STATUS_LABEL: string := "'\n\n**Status:** "
  const REASONING_LABEL: string := "\n\n**Reasoning:** "
  const SUMMARY_LABEL: string := "\n\n**General Summary of Report:**\n"

  function SuccessFinding(topic: string, status: string, reasoning: string, summary: string): string {
    TOPIC_LABEL + topic + STATUS_LABEL + status + REASONING_LABEL + reasoning + SUMMARY_LABEL + summary
  }

  // The error template: the topic between a fixed prefix and a fixed suffix.
  const ERROR_PREFIX: string := "Topic: '"
  const ERROR_SUFFIX: string :=
    "' | Status: Error | Reasoning: Failed to get a valid structured response from the language model."

  function ErrorFinding(topic: string): string {
    ERROR_PREFIX + topic + ERROR_SUFFIX
  }

  /** The finding recorded for a topic with the given outcome. */
  function FindingFor(topic: string, o: Outcome): string {
    match o
    case Success(_, status, reasoning, summary) => SuccessFinding(topic, status, reasoning, summary)
    case Failure(_) => ErrorFinding(topic)
  }

  /** The findings a worklist yields, one per topic, in worklist order. */
  function FindingsFor(topics: seq<string>, tools: Option<Toolkit>, excerpt: string): (r: seq<string>)
    ensures |r| == |topics|
  {
    if topics == [] then []
    else [FindingFor(topics[0], Attempt(tools, topics[0], excerpt))]
         + FindingsFor(topics[1..], tools, excerpt)
  }

  /** The finding `f` is one recorded for `topic`, in either template. */
  ghost predicate FindingAbout(f: string, topic: string) {
    f == ErrorFinding(topic)
    || exists status, reasoning, summary :: f == SuccessFinding(topic, status, reasoning, summary)
  }

  /** Recognises an error finding and recovers its topic. */
  function ErrorTopic(f: string): Option<string> {
    if |ERROR_PREFIX| + |ERROR_SUFFIX| <= |f|
       && f[..|ERROR_PREFIX|] == ERROR_PREFIX
       && f[|f| - |ERROR_SUFFIX|..] == ERROR_SUFFIX
    then Some(f[|ERROR_PREFIX|..|f| - |ERROR_SUFFIX|])
    else None
  }

  // ---------------------------------------------------------------------
  // The collaborators' outcome

  /** A topic is judged exactly when the tools are loaded, the retriever
      returns at least one passage, and the classifier's answer to the
      first passage carries all three keys; the judgement is then that
      answer's fields, about that first passage. */
  lemma AttemptSucceedsExactly(t: Toolkit, topic: string, excerpt: string)
    ensures var o := Attempt(Some(t), topic, excerpt);
      o.Success? <==>
        t.retrieve(topic).Passages? && |t.retrieve(topic).pageContents| > 0
        && t.classify(t.retrieve(topic).pageContents[0], excerpt).Parsed?
        && Complete(t.classify(t.retrieve(topic).pageContents[0], excerpt).fields)
    ensures var o := Attempt(Some(t), topic, excerpt);
      o.Success? ==>
        var rule := t.retrieve(topic).pageContents[0];
        var fields := t.classify(rule, excerpt).fields;
        o == Success(rule, fields[STATUS_KEY], fields[REASONING_KEY], fields[SUMMARY_KEY])
  {
  }

  /** With the tools not loaded every topic fails. */
  lemma UnloadedToolsFail(topic: string, excerpt: string)
    ensures FindingFor(topic, Attempt(None, topic, excerpt)) == ErrorFinding(topic)
  {
  }

  /** An empty retriever result is an error finding, whatever the classifier would say. */
  lemma EmptyRetrievalFails(t: Toolkit, topic: string, excerpt: string)
    requires t.retrieve(topic) == Passages([])
    ensures Attempt(Some(t), topic, excerpt) == Failure(NoPassages)
    ensures FindingFor(topic, Attempt(Some(t), topic, excerpt)) == ErrorFinding(topic)
  {
  }

  /** An answer that lacks any read key is an error finding. */
  lemma IncompleteAnswerFails(t: Toolkit, topic: string, excerpt: string)
    requires t.retrieve(topic).Passages? && |t.retrieve(topic).pageContents| > 0
    requires var answer := t.classify(t.retrieve(topic).pageContents[0], excerpt);
      answer.Parsed? && !Complete(answer.fields)
    ensures Attempt(Some(t), topic, excerpt).Failure?
    ensures Attempt(Some(t), topic, excerpt).cause.MissingKey?
    ensures FindingFor(topic, Attempt(Some(t), topic, excerpt)) == ErrorFinding(topic)
  {
  }

  /** Every failure, whatever its cause, yields the same finding, built
      from the topic alone: nothing of the classifier's text reaches it. */
  lemma FailuresAreAlike(topic: string, o1: Outcome, o2: Outcome)
    requires o1.Failure? && o2.Failure?
    ensures FindingFor(topic, o1) == FindingFor(topic, o2) == ErrorFinding(topic)
  {
  }

  /** An answer that follows the classifier's schema yields a success
      finding whose status is one of the four literals. */
  lemma SchemaAnswerSucceeds(t: Toolkit, topic: string, excerpt: string)
    requires t.retrieve(topic).Passages? && |t.retrieve(topic).pageContents| > 0
    requires var answer := t.classify(t.retrieve(topic).pageContents[0], excerpt);
      answer.Parsed? && FollowsSchema(answer.fields)
    ensures var o := Attempt(Some(t), topic, excerpt);
      o.Success? && ParseStatus(o.status).Some?
      && FindingFor(topic, o) == SuccessFinding(topic, StatusText(ParseStatus(o.status).value), o.reasoning, o.summary)
  {
  }

  // ---------------------------------------------------------------------
  // The templates

  /** A success finding holds the topic, status, reasoning and summary
      verbatim, at the places the template puts them. */
  lemma SuccessFindingFields(topic: string, status: string, reasoning: string, summary: string)
    ensures var f := SuccessFinding(topic, status, reasoning, summary);
      var a0 := |TOPIC_LABEL|;
      var a1 := a0 + |topic| + |STATUS_LABEL|;
      var a2 := a1 + |status| + |REASONING_LABEL|;
      var a3 := a2 + |reasoning| + |SUMMARY_LABEL|;
      && |f| == a3 + |summary|
      && f[..a0] == TOPIC_LABEL
      && f[a0..a0 + |topic|] == topic
      && f[a1..a1 + |status|] == status
      && f[a2..a2 + |reasoning|] == reasoning
      && f[a3..] == summary
  {
    var f := SuccessFinding(topic, status, reasoning, summary);
    var p0 := TOPIC_LABEL + topic + STATUS_LABEL;
    var p1 := p0 + status + REASONING_LABEL;
    var p2 := p1 + reasoning + SUMMARY_LABEL;
    assert f == p2 + summary;
    assert f[..|p2|] == p2;
    assert p2[..|p1|] == p1;
    assert p1[..|p0|] == p0;
    assert f[..|TOPIC_LABEL|] == p0[..|TOPIC_LABEL|];
  }

  /** The error template can be read back: it yields its own topic. */
  lemma ErrorFindingRoundTrip(topic: string)
    ensures ErrorTopic(ErrorFinding(topic)) == Some(topic)
  {
    var f := ErrorFinding(topic);
    assert f[..|ERROR_PREFIX|] == ERROR_PREFIX;
    assert f[|f| - |ERROR_SUFFIX|..] == ERROR_SUFFIX;
    assert f[|ERROR_PREFIX|..|f| - |ERROR_SUFFIX|] == topic;
  }

  /** Only error findings are read back, so distinct topics have distinct
      error findings and `ErrorTopic` recognises exactly the error template. */
  lemma ErrorTopicExact(f: string, topic: string)
    requires ErrorTopic(f) == Some(topic)
    ensures f == ErrorFinding(topic)
  {
    var p, q := |ERROR_PREFIX|, |f| - |ERROR_SUFFIX|;
    assert f[..p] == ERROR_PREFIX && f[q..] == ERROR_SUFFIX && f[p..q] == topic;
    assert f == f[..p] + f[p..q] + f[q..];
  }

  /** A success finding is never mistaken for an error finding. */
  lemma SuccessIsNotError(topic: string, status: string, reasoning: string, summary: string)
    ensures ErrorTopic(SuccessFinding(topic, status, reasoning, summary)) == None
  {
    var f := SuccessFinding(topic, status, reasoning, summary);
    assert f[0] != ERROR_PREFIX[0];
  }

  // ---------------------------------------------------------------------
  // A worklist's findings

  /** Finding i of a worklist is the one for topic i, with that topic's outcome. */
  lemma {:induction false} FindingsForAt(topics: seq<string>, tools: Option<Toolkit>, excerpt: string, i: nat)
    requires i < |topics|
    ensures FindingsFor(topics, tools, excerpt)[i] == FindingFor(topics[i], Attempt(tools, topics[i], excerpt))
  {
    var head := FindingFor(topics[0], Attempt(tools, topics[0], excerpt));
    var rest := FindingsFor(topics[1..], tools, excerpt);
    assert FindingsFor(topics, tools, excerpt) == [head] + rest;
    if i > 0 {
      FindingsForAt(topics[1..], tools, excerpt, i - 1);
      assert topics[1..][i - 1] == topics[i];
    }
  }

  /** The findings of a split worklist are the findings of its parts, in order. */
  lemma {:induction false} FindingsForAppend(a: seq<string>, b: seq<string>, tools: Option<Toolkit>, excerpt: string)
    ensures FindingsFor(a + b, tools, excerpt) == FindingsFor(a, tools, excerpt) + FindingsFor(b, tools, excerpt)
  {
    if a == [] {
      assert a + b == b;
    } else {
      assert (a + b)[0] == a[0];
      assert (a + b)[1..] == a[1..] + b;
      FindingsForAppend(a[1..], b, tools, excerpt);
    }
  }

  /** Whatever the collaborators answer, a worklist yields one finding per
      topic, each about its own topic, in worklist order: two runs over the
      same worklist with collaborators that answer differently record
      findings for the same topics in the same order. */
  lemma FindingsForSameTopics(topics: seq<string>, tools1: Option<Toolkit>, tools2: Option<Toolkit>, excerpt: string)
    ensures |FindingsFor(topics, tools1, excerpt)| == |FindingsFor(topics, tools2, excerpt)| == |topics|
    ensures forall i :: 0 <= i < |topics| ==>
      FindingAbout(FindingsFor(topics, tools1, excerpt)[i], topics[i])
      && FindingAbout(FindingsFor(topics, tools2, excerpt)[i], topics[i])
  {
    forall i | 0 <= i < |topics|
      ensures FindingAbout(FindingsFor(topics, tools1, excerpt)[i], topics[i])
      ensures FindingAbout(FindingsFor(topics, tools2, excerpt)[i], topics[i])
    {
      FindingsForAt(topics, tools1, excerpt, i);
      FindingsForAt(topics, tools2, excerpt, i);
      FindingForIsAbout(topics[i], Attempt(tools1, topics[i], excerpt));
      FindingForIsAbout(topics[i], Attempt(tools2, topics[i], excerpt));
    }
  }

  /** The finding for a topic is about that topic, whatever the outcome. */
  lemma FindingForIsAbout(topic: string, o: Outcome)
    ensures FindingAbout(FindingFor(topic, o), topic)
  {
    if o.Success? {
      assert FindingFor(topic, o) == SuccessFinding(topic, o.status, o.reasoning, o.summary);
    }
  }
}
