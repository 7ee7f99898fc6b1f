/** The runner's side of grading: every claim is read off the ordered trace by a filter that
    knows nothing of the gate's automaton (evaluation/runner.py). */
module Evidence {
  import opened Domain
  import opened Rows

  datatype Attempt = Attempt(id: AttemptId, closing: Closing, code: Option<Code>, transient: Option<bool>)

  datatype Fault = Fault(id: AttemptId, kind: FaultKind)

  datatype Accepted = Accepted(step: nat, tool: Tool, output: Output)

  function ClosingOf(body: Body): Attempt
    requires body.AttemptClosed?
  {
    Attempt(body.id, body.closing, body.code, body.transient)
  }

  function StartedIds(events: seq<Event>): seq<AttemptId> {
    if events == [] then []
    else
      var rest := StartedIds(events[..|events| - 1]);
      var body := events[|events| - 1].note.body;
      if body.AttemptStarted? then rest + [body.id] else rest
  }

  /** Every closing event of an attempt, in trace order. */
  function AttemptEvidence(events: seq<Event>): seq<Attempt> {
    if events == [] then []
    else
      var rest := AttemptEvidence(events[..|events| - 1]);
      var body := events[|events| - 1].note.body;
      if body.AttemptClosed? then rest + [ClosingOf(body)] else rest
  }

  function FaultEvidence(events: seq<Event>): seq<Fault> {
    if events == [] then []
    else
      var rest := FaultEvidence(events[..|events| - 1]);
      var body := events[|events| - 1].note.body;
      if body.FaultInjected? then rest + [Fault(body.id, body.kind)] else rest
  }

  function RejectionEvidence(events: seq<Event>): seq<AttemptId> {
    if events == [] then []
    else
      var rest := RejectionEvidence(events[..|events| - 1]);
      var body := events[|events| - 1].note.body;
      if body.OutputRejected? then rest + [body.id] else rest
  }

  function Ids(attempts: seq<Attempt>): (ids: seq<AttemptId>)
    ensures |ids| == |attempts|
    ensures forall i :: 0 <= i < |attempts| ==> ids[i] == attempts[i].id
  {
    if attempts == [] then [] else Ids(attempts[..|attempts| - 1]) + [attempts[|attempts| - 1].id]
  }

  /** The runner raises unless starts and closings are the same multiset of identities. */
  predicate AttemptsComplete(events: seq<Event>) {
    multiset(StartedIds(events)) == multiset(Ids(AttemptEvidence(events)))
  }

  /** First tool announced for each step; None when a step is announced with two tools. */
  function ToolsByStep(events: seq<Event>): Option<map<nat, Tool>> {
    if events == [] then Some(map[])
    else
      var rest := ToolsByStep(events[..|events| - 1]);
      var body := events[|events| - 1].note.body;
      if rest.None? || !body.PolicyAction? || !body.action.CallTool? then rest
      else if body.step !in rest.value then Some(rest.value[body.step := body.action.tool])
      else if rest.value[body.step] != body.action.tool then None
      else rest
  }

  /** The values of a step-indexed map in the order of their steps, below `bound`. */
  function InStepOrder(tools: map<nat, Tool>, bound: nat): seq<Tool> {
    if bound == 0 then []
    else
      var rest := InStepOrder(tools, bound - 1);
      if bound - 1 in tools then rest + [tools[bound - 1]] else rest
  }

  /** The announced steps lie below this bound. */
  function StepBound(events: seq<Event>): nat {
    if events == [] then 0
    else
      var rest := StepBound(events[..|events| - 1]);
      var body := events[|events| - 1].note.body;
      if body.PolicyAction? && body.step >= rest then body.step + 1 else rest
  }

  function LogicalToolSequence(events: seq<Event>): Option<seq<Tool>> {
    var tools := ToolsByStep(events);
    if tools.None? then None else Some(InStepOrder(tools.value, StepBound(events)))
  }

  lemma AppendEvidence(t: Tables, note: Note)
    ensures AttemptEvidence(Append(t, note).events)
            == AttemptEvidence(t.events) + (if note.body.AttemptClosed? then [ClosingOf(note.body)] else [])
  {
    assert Append(t, note).events[..|t.events|] == t.events;
  }
}
