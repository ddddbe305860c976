// The interactive workflow: a long-running instance that holds the state of
// one conversation, answers three queries (read the state, submit answers,
// submit a selection) and steps itself between the refine and search
// activities until a selection is made or an activity fails.
//
// The activities themselves are not modelled: each step that calls one is
// given the call's outcome as a parameter and reports which activity it
// called with which argument.

module Interactive {
  import opened Shared

  datatype Status = Pending | AwaitsRefinement | Refined | AwaitsSelection | Error | Completed
  {
    /** The string the workflow stores and reports for this status. */
    function Name(): (name: string)
      ensures |name| > 0
    {
      match this
      case Pending => "pending"
      case AwaitsRefinement => "awaits_refinement"
      case Refined => "refined"
      case AwaitsSelection => "awaits_selection"
      case Error => "error"
      case Completed => "completed"
    }
  }

  /** Different statuses are stored as different strings. */
  lemma StatusNamesDistinct(a: Status, b: Status)
    ensures a != b ==> a.Name() != b.Name()
  {
  }

  /** The record the state query returns. */
  datatype WorkflowState = WorkflowState(
    status: Status,
    initQuery: string,
    refinementQuestions: seq<string>,
    refinementAnswers: seq<string>,
    searchResults: seq<SearchResult>,
    searchSelection: Option<Int64>)

  /** A query that changes the state: the answer handler or the selection handler. */
  datatype Query = AnswerQuery(answers: seq<string>) | SelectionQuery(choiceIndex: Int64)

  /** The activity one step called, with its argument. */
  datatype Invocation = RefineCall(query: string) | SearchCall(enrichedQuery: string)

  /** How one pass through the loop body ends: the loop is left, the next pass
      starts at once, the workflow sleeps before the next pass, or the pass
      panics (an index out of range), which fails the workflow task. */
  datatype Control = Exit | Continue | Sleep(seconds: int) | Panic

  datatype StepResult = StepResult(state: WorkflowState, control: Control, invoked: Option<Invocation>)

  /** What can happen to a running instance: a query arrives while the loop is
      between passes, or the loop makes one pass. `outcome` is the result of the
      activity that pass calls, if it calls one; `during` are the queries that
      arrive while the pass waits for that activity. A pass that calls no
      activity does not consult them: it blocks, if at all, only in the sleep
      that ends it, and nothing after that sleep touches the state, so queries
      served during the sleep are the same as `Deliver` events after the pass. */
  datatype Event = Deliver(query: Query) | Iterate(outcome: Outcome<RefineOutput>, during: seq<Query>)

  /** Whether the loop is still running, has been left, or has panicked. */
  datatype Phase = Running | Exited | Panicked

  // ---------------------------------------------------------------------
  // The state record and the pure specification of every transition

  /** The state a new instance starts in. */
  function Initial(initQuery: string): (s: WorkflowState)
  {
    WorkflowState(Pending, initQuery, [], [], [], None)
  }

  /** The effect of one query handler on the state. */
  function ApplyQuery(s: WorkflowState, q: Query): (r: WorkflowState)
  {
    match q
    case AnswerQuery(answers) => s.(refinementAnswers := answers, status := Refined)
    case SelectionQuery(i) => s.(searchSelection := Some(i), status := Completed)
  }

  /** The effect of a series of queries, handled in order. */
  function ApplyQueries(s: WorkflowState, qs: seq<Query>): (r: WorkflowState)
    decreases |qs|
  {
    if |qs| == 0 then s else ApplyQueries(ApplyQuery(s, qs[0]), qs[1..])
  }

  /** The first part of the enriched query. It is a raw string literal in the
      workflow, so each `\n` in it is a backslash followed by `n`, not a newline. */
  function Preamble(initQuery: string): (text: string)
  {
    "Original query: " + initQuery + " \\n\\n Additional context from clarifications: \\n"
  }

  /** The line added for one answered question; it ends in a real newline. */
  function Clarification(question: string, answer: string): (line: string)
  {
    "- " + question + "? " + answer + " \n"
  }

  /** One line per answer, in order, each pairing the answer with the question
      at the same position. */
  function Clarifications(questions: seq<string>, answers: seq<string>): (lines: string)
    requires |answers| <= |questions|
    decreases |answers|
  {
    if |answers| == 0 then ""
    else
      var n := |answers| - 1;
      Clarifications(questions, answers[..n]) + Clarification(questions[n], answers[n])
  }

  /** The query the search activity receives. It is defined only when every
      answer has a question at its position; otherwise building it panics. */
  function EnrichedQuery(initQuery: string, questions: seq<string>, answers: seq<string>): (query: string)
    requires |answers| <= |questions|
  {
    Preamble(initQuery) + Clarifications(questions, answers)
  }

  /** One pass through the body of the workflow's loop, including the loop
      condition. */
  function StepSpec(s: WorkflowState, outcome: Outcome<RefineOutput>, during: seq<Query>): (r: StepResult)
  {
    if s.status == Completed || s.status == Error then
      StepResult(s, Exit, None)
    else if |s.refinementAnswers| >= |s.refinementQuestions| && s.status == AwaitsRefinement then
      StepResult(s.(status := Refined), Continue, None)
    else if s.status == Pending then
      var call := Some(RefineCall(s.initQuery));
      var w := ApplyQueries(s, during);
      match outcome
      case Failure(_) => StepResult(w.(status := Error), Exit, call)
      case Success(output) =>
        if |output.refineQuestions| > 0 then
          StepResult(w.(status := AwaitsRefinement, refinementQuestions := output.refineQuestions), Continue, call)
        else
          StepResult(w.(status := AwaitsSelection, searchResults := output.searchResults), Continue, call)
    else if s.status == Refined then
      if |s.refinementAnswers| > |s.refinementQuestions| then
        StepResult(s, Panic, None)
      else
        var call := Some(SearchCall(EnrichedQuery(s.initQuery, s.refinementQuestions, s.refinementAnswers)));
        var w := ApplyQueries(s, during);
        // a failed search leaves the output at its zero value
        var results := if outcome.Success? then outcome.value.searchResults else [];
        StepResult(w.(status := AwaitsSelection, searchResults := results), Continue, call)
    else if s.status == Completed then
      StepResult(s, Sleep(1), None)
    else
      StepResult(s, Sleep(3), None)
  }

  /** The state and phase after a series of events, starting from `s` with
      the loop running. Events after the loop has stopped have no effect. */
  function Replay(s: WorkflowState, events: seq<Event>): (r: (WorkflowState, Phase))
    decreases |events|
  {
    if |events| == 0 then (s, Running)
    else
      match events[0]
      case Deliver(q) => Replay(ApplyQuery(s, q), events[1..])
      case Iterate(outcome, during) =>
        var r := StepSpec(s, outcome, during);
        if r.control == Exit then (r.state, Exited)
        else if r.control == Panic then (r.state, Panicked)
        else Replay(r.state, events[1..])
  }

  /** Builds the enriched query the way the workflow does, appending one line
      per answer; `None` stands for the panic when an answer has no question. */
  method BuildEnrichedQuery(initQuery: string, questions: seq<string>, answers: seq<string>)
    returns (r: Option<string>)
    ensures r.Some? <==> |answers| <= |questions|
    ensures r.Some? ==> r.value == EnrichedQuery(initQuery, questions, answers)
  {
    var enriched := Preamble(initQuery);
    for i := 0 to |answers|
      invariant i <= |questions|
      invariant enriched == Preamble(initQuery) + Clarifications(questions, answers[..i])
    {
      if i >= |questions| {
        return None;
      }
      enriched := enriched + Clarification(questions[i], answers[i]);
      assert answers[..i + 1][..i] == answers[..i];
    }
    assert answers[..|answers|] == answers;
    return Some(enriched);
  }

  // ---------------------------------------------------------------------
  // The running instance

  class InteractiveWorkflow {
    var status: Status
    var initQuery: string
    var refinementQuestions: seq<string>
    var refinementAnswers: seq<string>
    var searchResults: seq<SearchResult>
    var searchSelection: Option<Int64>

    /** The fields, read together as one record. */
    function Snapshot(): (s: WorkflowState)
      reads this
    {
      WorkflowState(status, initQuery, refinementQuestions, refinementAnswers, searchResults, searchSelection)
    }

    /** Starts an instance for the user's initial query. */
    constructor (query: string)
      ensures status == Pending && initQuery == query
      ensures refinementQuestions == [] && refinementAnswers == [] && searchResults == []
      ensures searchSelection == None
    {
      status := Pending;
      initQuery := "";
      refinementQuestions := [];
      refinementAnswers := [];
      searchResults := [];
      searchSelection := None;
      initQuery := query;
    }

    /** The state query: the current state, unchanged. */
    method QueryState() returns (s: WorkflowState)
      ensures s.status == status && s.initQuery == initQuery
      ensures s.refinementQuestions == refinementQuestions && s.refinementAnswers == refinementAnswers
      ensures s.searchResults == searchResults && s.searchSelection == searchSelection
    {
      s := Snapshot();
    }

    /** The answer handler: stores the answers and marks the state refined,
        whatever the status was and however many answers there are. */
    method Answer(answers: seq<string>) returns (ok: bool)
      modifies this
      ensures ok
      ensures refinementAnswers == answers && status == Refined
      ensures initQuery == old(initQuery) && refinementQuestions == old(refinementQuestions)
      ensures searchResults == old(searchResults) && searchSelection == old(searchSelection)
    {
      refinementAnswers := answers;
      status := Refined;
      return true;
    }

    /** The selection handler: records the choice and completes the
        conversation, whatever the status was and without a range check. */
    method SelectSearchResult(choiceIndex: Int64) returns (ok: bool)
      modifies this
      ensures ok
      ensures searchSelection == Some(choiceIndex) && status == Completed
      ensures initQuery == old(initQuery) && refinementQuestions == old(refinementQuestions)
      ensures refinementAnswers == old(refinementAnswers) && searchResults == old(searchResults)
    {
      searchSelection := Some(choiceIndex);
      status := Completed;
      return true;
    }

    /** Handles queries one after another, as the runtime does while the
        workflow is blocked waiting for an activity. */
    method ServeQueries(queries: seq<Query>)
      modifies this
      ensures Snapshot() == ApplyQueries(old(Snapshot()), queries)
    {
      for i := 0 to |queries|
        invariant ApplyQueries(old(Snapshot()), queries) == ApplyQueries(Snapshot(), queries[i..])
      {
        assert queries[i..][1..] == queries[i + 1..];
        match queries[i]
        case AnswerQuery(answers) =>
          var _ := Answer(answers);
        case SelectionQuery(choiceIndex) =>
          var _ := SelectSearchResult(choiceIndex);
      }
    }

    /** One pass through the loop of the workflow, the loop condition
        included. */
    method Step(outcome: Outcome<RefineOutput>, during: seq<Query>) returns (control: Control, invoked: Option<Invocation>)
      modifies this
      ensures StepResult(Snapshot(), control, invoked) == StepSpec(old(Snapshot()), outcome, during)
    {
      if status == Completed {
        return Exit, None;
      }
      if status == Error {
        return Exit, None;
      }
      if |refinementAnswers| >= |refinementQuestions| && status == AwaitsRefinement {
        status := Refined;
        return Continue, None;
      }
      if status == Pending {
        invoked := Some(RefineCall(initQuery));
        ServeQueries(during);
        if outcome.Failure? {
          status := Error;
          return Exit, invoked;
        }
        if |outcome.value.refineQuestions| > 0 {
          status := AwaitsRefinement;
          refinementQuestions := outcome.value.refineQuestions;
          return Continue, invoked;
        }
        status := AwaitsSelection;
        searchResults := outcome.value.searchResults;
        return Continue, invoked;
      }
      if status == Refined {
        var enriched := BuildEnrichedQuery(initQuery, refinementQuestions, refinementAnswers);
        if enriched.None? {
          return Panic, None;
        }
        invoked := Some(SearchCall(enriched.value));
        ServeQueries(during);
        var output := RefineOutput([], []);
        if outcome.Success? {
          output := outcome.value;
        }
        if outcome.Failure? {
          status := Error;
        }
        status := AwaitsSelection;
        searchResults := output.searchResults;
        return Continue, invoked;
      }
      if status == Completed {
        return Sleep(1), None;
      }
      return Sleep(3), None;
    }

    /** The workflow's loop, driven by a series of events until it stops or
        the events run out. */
    method Run(events: seq<Event>) returns (phase: Phase)
      modifies this
      ensures (Snapshot(), phase) == Replay(old(Snapshot()), events)
    {
      phase := Running;
      var i := 0;
      while i < |events| && phase == Running
        invariant 0 <= i <= |events|
        invariant phase == Running ==> Replay(old(Snapshot()), events) == Replay(Snapshot(), events[i..])
        invariant phase != Running ==> Replay(old(Snapshot()), events) == (Snapshot(), phase)
        decreases |events| - i
      {
        assert events[i..][1..] == events[i + 1..];
        match events[i] {
          case Deliver(AnswerQuery(answers)) =>
            var _ := Answer(answers);
          case Deliver(SelectionQuery(choiceIndex)) =>
            var _ := SelectSearchResult(choiceIndex);
          case Iterate(outcome, during) =>
            var control, _ := Step(outcome, during);
            if control == Exit {
              phase := Exited;
            } else if control == Panic {
              phase := Panicked;
            }
        }
        i := i + 1;
      }
    }
  }
}
