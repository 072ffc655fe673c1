# GreenLight AI audit orchestrator, in Dafny

This project models the audit orchestrator of GreenLight AI, an ESG
compliance auditor. The orchestrator threads one mutable record
(`AuditState`) through two graph nodes:

- `start_audit` seeds the worklist of topics with the single topic
  `"GHG emissions"` and clears the findings;
- `process_topic` pops the head topic, asks the rule retriever for passages
  on it, and asks the compliance classifier to judge the first passage
  against the report text. It then appends exactly one finding. That is a
  formatted judgement on success, or a fixed error finding when anything in
  that chain fails;
- `should_continue` routes `process_topic` back to itself while topics
  remain, and ends the run otherwise.

Module layout:

- `Wrappers` (wrappers.dfy) defines `Option`.
- `Tools` (tools.dfy) is the collaborator boundary. `Status` is the four
  compliance levels of the classifier's output schema. `Retrieval` is a
  retriever call: a list of page contents, or an exception. `Classification`
  is a classifier call: a parsed JSON object, or an exception. `Toolkit`
  holds the two loaded collaborators as functions.
- `Findings` (findings.dfy) covers one topic's outcome, `Attempt`, and the two
  finding templates. `FindingsFor` is the specification of a whole worklist,
  with the lemmas about them.
- `Agent` (agent.dfy) holds the class `AuditState` with its nodes and the
  graph as a `while` loop, plus `Audit`, one run as the upload page starts it.

The collaborators are a parameter `tools: Option<Toolkit>`. `None` stands for
the module-level loading that failed and left both tools `None`
(src/agent.py:21-28). Each node method is proved against the pure functions:
`ProcessTopic` appends `FindingFor(topic, Attempt(tools, topic, reportText))`,
and `RunLoop` appends `FindingsFor(worklist, tools, reportText)`. The
properties of those functions are then proved as lemmas.

A success finding holds the topic, status, reasoning and summary
(src/agent.py:65-70). It never holds the retrieved passage, which only goes
to the classifier (`Findings.SuccessFindingFields`).

## Model

| member | source | states |
|---|---|---|
| `Tools.ParseStatus` | src/tools/classifier.py:16 | a status text is read back as the level whose schema literal it is, and as `None` exactly when it equals none of "Met", "Partially Met", "Not Met", "Uncertain" |
| `Tools.StatusTextInjective` | src/tools/classifier.py:16 | the four levels have four distinct literals |
| `Tools.StatusRoundTrip` | src/tools/classifier.py:16 | every level's schema literal reads back as that level |
| `Findings.AttemptSucceedsExactly` | src/agent.py:52-70 | with the tools loaded, a topic is judged if and only if the retriever returns at least one passage and the classifier's answer to the first passage is a parsed object holding `compliance_status`, `reasoning` and `summary`; the judgement is then exactly that passage and those three values |
| `Findings.UnloadedToolsFail` | src/agent.py:25-28 | when tool loading failed, every topic gets the error finding |
| `Findings.EmptyRetrievalFails` | src/agent.py:54 | an empty retriever result is a failure (the `[0]` that raises), recorded as the error finding |
| `Findings.IncompleteAnswerFails` | src/agent.py:65-70 | an answer missing any of the three keys read by the template is a missing-key failure, recorded as the error finding |
| `Findings.FailuresAreAlike` | src/agent.py:74-77 | every failure, whatever its cause, yields the same finding, built from the topic alone and carrying no classifier text |
| `Findings.SchemaAnswerSucceeds` | src/tools/classifier.py:14-24 | an answer that follows the classifier's declared schema yields a success finding whose status is the literal of one of the four levels |
| `Findings.SuccessFindingFields` | src/agent.py:65-70 | a success finding is `**Topic:** '` + topic + `'\n\n**Status:** ` + status + `\n\n**Reasoning:** ` + reasoning + `\n\n**General Summary of Report:**\n` + summary, with each of the four texts verbatim at its computed offset |
| `Findings.ErrorFindingRoundTrip` | src/agent.py:76 | the error finding for a topic is recognised as an error finding and gives back that topic |
| `Findings.ErrorTopicExact` | src/agent.py:76 | only text made of the fixed error prefix, a topic and the fixed error suffix is recognised, and it recognises to that topic, so distinct topics have distinct error findings |
| `Findings.SuccessIsNotError` | src/agent.py:65-77 | a success finding is never recognised as an error finding, so a reader can tell the two apart |
| `Findings.FindingsFor` | src/agent.py:39-79 | a worklist yields exactly as many findings as it has topics |
| `Findings.FindingsForAt` | src/agent.py:39-79 | finding i of a worklist is the finding for topic i with that topic's own outcome |
| `Findings.FindingForIsAbout` | src/agent.py:65-77 | whatever the outcome, the finding recorded for a topic is in one of the two templates with that topic in it |
| `Findings.FindingsForSameTopics` | src/agent.py:111-118 | two runs over the same worklist, with collaborators that may answer differently, both yield one finding per topic, finding i being about topic i in both |
| `Findings.FindingsForAppend` | src/agent.py:111-118 | the findings of two worklists run one after the other are the findings of each, concatenated in order |
| `Agent.AuditState.constructor` | app.py:39 | a fresh record holds only the report text: no topics, no findings, no current topic, no error |
| `Agent.AuditState.StartAudit` | src/agent.py:30-37 | the worklist becomes exactly `["GHG emissions"]` and the findings empty; report text, current topic and error are unchanged |
| `Agent.AuditState.ProcessTopic` | src/agent.py:39-79 | on an empty worklist nothing changes. Otherwise exactly the head is removed, the tail keeps its order, the head becomes the current topic, and exactly one finding (success or error) is appended with earlier findings unchanged. Report text and error are never written |
| `Agent.AuditState.ShouldContinue` | src/agent.py:83-90 | the route is `Continue` if and only if topics remain, and `End` if and only if the worklist is empty |
| `Agent.AuditState.RunLoop` | src/agent.py:111-118 | from any worklist of N topics, the self-loop terminates with the worklist empty. It appends exactly N findings, in worklist order, and finding i is the one for topic i. The last topic is left as the current topic, and report text and error are unchanged |
| `Agent.AuditState.Invoke` | src/agent.py:99-118 | the whole graph run leaves the worklist empty and "GHG emissions" as the current topic, with the findings of the seeded worklist; report text and error are unchanged |
| `Agent.Audit` | app.py:39-54 | an audit from a fresh record ends with exactly one finding, the one for "GHG emissions", and no error. So the upload page's "no findings" and error branches are never reached |
| `Agent.AuditIsRepeatable` | app.py:39-43 | two audits of the same report, with collaborators that may answer differently, each record exactly one finding, and both findings are about "GHG emissions" |

## Left out

- The loading of the tools at import time (src/agent.py:21-28) is not modelled. It is the `Option<Toolkit>` parameter instead, with `None` when loading failed.
- The `print` logging, including the text of a caught exception, is not modelled. It is output only.
- The LangGraph machinery (`StateGraph`, `add_conditional_edges`, `compile`) is not modelled. The graph is modelled directly as the loop it amounts to. LangGraph's per-run step limit (25 steps by default) is not modelled, so the loop has no such bound. With the one hardcoded topic a run takes two steps.
- LangGraph's node semantics are not modelled: a node returns the record and the framework stores it. Each node is modelled as an in-place update of one record.
- Within one run the collaborators are modelled as functions, so the model does not capture the language model answering the same input differently within a single audit. Across audits each run takes its own collaborators, and `AuditIsRepeatable` and `FindingsForSameTopics` compare runs whose answers differ.
- The retriever's internals are not modelled: the FAISS index, embeddings, and `k=4` similarity search (src/tools/retriever.py). A retrieval is any list of passages, possibly empty, or an exception.
- The classifier's internals are not modelled: prompt, Ollama model and JSON parser (src/tools/classifier.py). A classification is a JSON object with string values, or an exception. JSON values of other types, which the template would render with `str()`, are not represented. An answer that parses to something other than a JSON object (a list, a string or null) raises `TypeError` at `result['compliance_status']` (src/agent.py:67) and becomes the error finding. The model captures that case only implicitly, as `ClassifierRaised`.
- The parser does not enforce the status literals it declares. So the finding carries the status text exactly as returned, and `Status` only describes the declared schema (`SchemaAnswerSucceeds`).
- Keys missing from the initial record are modelled as empty sequences or `None`. In the source, reading them before `start_audit` would raise `KeyError`, but the graph always enters through `start_audit`.
- The `error` field is modelled as `Option<string>`. No node writes it, so it stays `None`.
- The presentation layer is not part of this model: app.py's upload page, PDF text extraction and rendering. Only the record it builds (app.py:39) and what it reads back are modelled.
- src/processing.py (PDF loading, chunking, embedding, saving the index) is not part of this model. It is file I/O and foreign library calls.
