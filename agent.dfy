/** The audit orchestrator of src/agent.py: a record threaded through
    two graph nodes, start_audit and process_topic, with should_continue
    routing process_topic back to itself until the worklist is drained. */
module Agent {
  import opened Wrappers
  import opened Tools
  import opened Findings

  /** The topic start_audit seeds the worklist with. */
  const GHG_TOPIC: string := "GHG emissions"

  /** Where should_continue sends the run next. */
  datatype Route = Continue | End

  /** The mutable audit record. Keys the initial record does not hold yet
      are modelled as empty (the worklist, the findings) or `None` (the
      current topic, the error). */
  class AuditState {
    var companyReportText: string
    var topics: seq<string>
    var currentTopic: Option<string>
    var auditFindings: seq<string>
    var error: Option<string>

    /** A fresh record holding only the report text. */
    constructor (reportText: string)
      ensures companyReportText == reportText
      ensures topics == [] && auditFindings == []
      ensures currentTopic == None && error == None
    {
      companyReportText := reportText;
      topics := [];
      currentTopic := None;
      auditFindings := [];
      error := None;
    }

    /** Seeds the worklist with the one hardcoded topic and clears the findings. */
    method StartAudit()
      modifies this
      ensures topics == [GHG_TOPIC] && auditFindings == []
      ensures companyReportText == old(companyReportText)
      ensures currentTopic == old(currentTopic) && error == old(error)
    {
      topics := [GHG_TOPIC];
      auditFindings := [];
    }

    /** Pops the head topic and records exactly one finding for it: the
        formatted judgement when the collaborators succeed, the fixed error
        finding otherwise. An empty worklist leaves the record as it is. */
    method ProcessTopic(tools: Option<Toolkit>)
      modifies this
      ensures old(topics) == [] ==>
        topics == old(topics) && auditFindings == old(auditFindings) && currentTopic == old(currentTopic)
      ensures old(topics) != [] ==>
        && topics == old(topics)[1..]
        && currentTopic == Some(old(topics)[0])
        && auditFindings == old(auditFindings)
             + [FindingFor(old(topics)[0], Attempt(tools, old(topics)[0], old(companyReportText)))]
      ensures companyReportText == old(companyReportText) && error == old(error)
    {
      if topics == [] {
        return;
      }
      var topic := topics[0];
      topics := topics[1..];
      currentTopic := Some(topic);
      var outcome := Attempt(tools, topic, companyReportText);
      auditFindings := auditFindings + [FindingFor(topic, outcome)];
    }

    /** Loops back to process_topic exactly while topics remain. */
    function ShouldContinue(): (r: Route)
      reads this
      ensures r == Continue <==> |topics| > 0
      ensures r == End <==> topics == []
    {
      if topics != [] then Continue else End
    }

    /** The self-loop on process_topic, from whatever worklist the record
        holds: it drains the worklist and appends one finding per topic, in
        worklist order, leaving the last topic as the current one. */
    method RunLoop(tools: Option<Toolkit>)
      modifies this
      ensures topics == []
      ensures auditFindings == old(auditFindings) + FindingsFor(old(topics), tools, old(companyReportText))
      ensures currentTopic == if old(topics) == [] then old(currentTopic) else Some(old(topics)[|old(topics)| - 1])
      ensures companyReportText == old(companyReportText) && error == old(error)
    {
      ghost var seed := topics;
      while ShouldContinue() == Continue
        invariant companyReportText == old(companyReportText) && error == old(error)
        invariant |topics| <= |seed| && topics == seed[|seed| - |topics|..]
        invariant auditFindings + FindingsFor(topics, tools, companyReportText)
                  == old(auditFindings) + FindingsFor(seed, tools, companyReportText)
        invariant |auditFindings| == |old(auditFindings)| + (|seed| - |topics|)
        invariant currentTopic == if |topics| == |seed| then old(currentTopic) else Some(seed[|seed| - |topics| - 1])
        decreases |topics|
      {
        ghost var before := auditFindings;
        ghost var rest := topics;
        ProcessTopic(tools);
        assert FindingsFor(rest, tools, companyReportText)
               == [FindingFor(rest[0], Attempt(tools, rest[0], companyReportText))] + FindingsFor(topics, tools, companyReportText);
        assert auditFindings + FindingsFor(topics, tools, companyReportText)
               == before + FindingsFor(rest, tools, companyReportText);
      }
    }

    /** The compiled graph: start_audit, then process_topic for as long as
        should_continue says so. */
    method Invoke(tools: Option<Toolkit>)
      modifies this
      ensures topics == [] && currentTopic == Some(GHG_TOPIC)
      ensures auditFindings == FindingsFor([GHG_TOPIC], tools, old(companyReportText))
      ensures companyReportText == old(companyReportText) && error == old(error)
    {
      StartAudit();
      RunLoop(tools);
    }
  }

  /** One audit as the upload page runs it: a fresh record holding the
      report text, the graph run to its end, and the findings and error
      read from the final record. There is always exactly one finding, for
      the seeded topic, and never an error. */
  method Audit(reportText: string, tools: Option<Toolkit>) returns (findings: seq<string>, error: Option<string>)
    ensures |findings| == 1
    ensures findings[0] == FindingFor(GHG_TOPIC, Attempt(tools, GHG_TOPIC, reportText))
    ensures error == None
  {
    var state := new AuditState(reportText);
    state.Invoke(tools);
    findings, error := state.auditFindings, state.error;
  }

  /** Two audits of the same report record findings for the same topics
      in the same order, even when the collaborators answer differently
      from one audit to the next. */
  method AuditIsRepeatable(reportText: string, tools1: Option<Toolkit>, tools2: Option<Toolkit>)
    returns (first: seq<string>, second: seq<string>)
    ensures |first| == |second| == 1
    ensures FindingAbout(first[0], GHG_TOPIC) && FindingAbout(second[0], GHG_TOPIC)
  {
    var firstError, secondError;
    first, firstError := Audit(reportText, tools1);
    second, secondError := Audit(reportText, tools2);
    FindingForIsAbout(GHG_TOPIC, Attempt(tools1, GHG_TOPIC, reportText));
    FindingForIsAbout(GHG_TOPIC, Attempt(tools2, GHG_TOPIC, reportText));
  }
}
