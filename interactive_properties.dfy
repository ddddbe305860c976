// What the interactive workflow's transitions promise, proved about the
// specification functions that the running instance's methods follow.

module InteractiveProperties {
  import opened Shared
  import opened Interactive

  /** The two facts about the state that every reachable state keeps: the
      workflow only waits for answers when it has asked questions, and it is
      only completed once a selection has been recorded. */
  predicate WellFormed(s: WorkflowState)
  {
    (s.status == AwaitsRefinement ==> |s.refinementQuestions| > 0) &&
    (s.status == Completed ==> s.searchSelection.Some?)
  }

  // ---------------------------------------------------------------------
  // The query handlers

  /** Handlers never touch the initial query, the questions or the results. */
  lemma {:induction false} QueriesKeepOtherFields(s: WorkflowState, qs: seq<Query>)
    ensures ApplyQueries(s, qs).initQuery == s.initQuery
    ensures ApplyQueries(s, qs).refinementQuestions == s.refinementQuestions
    ensures ApplyQueries(s, qs).searchResults == s.searchResults
    decreases |qs|
  {
    if |qs| > 0 {
      QueriesKeepOtherFields(ApplyQuery(s, qs[0]), qs[1..]);
    }
  }

  /** The last query decides the status: answers leave the state refined,
      a selection leaves it completed, and the last one of each kind decides
      the stored answers or the stored index. */
  lemma {:induction false} LastQueryWins(s: WorkflowState, qs: seq<Query>)
    requires |qs| > 0
    ensures var r := ApplyQueries(s, qs);
      match qs[|qs| - 1]
      case AnswerQuery(answers) => r.status == Refined && r.refinementAnswers == answers
      case SelectionQuery(i) => r.status == Completed && r.searchSelection == Some(i)
    decreases |qs|
  {
    if |qs| > 1 {
      LastQueryWins(ApplyQuery(s, qs[0]), qs[1..]);
    }
  }

  /** Without a selection query, the stored selection stays as it was. */
  lemma {:induction false} SelectionOnlyBySelectionQuery(s: WorkflowState, qs: seq<Query>)
    requires forall k :: 0 <= k < |qs| ==> qs[k].AnswerQuery?
    ensures ApplyQueries(s, qs).searchSelection == s.searchSelection
    decreases |qs|
  {
    if |qs| > 0 {
      SelectionOnlyBySelectionQuery(ApplyQuery(s, qs[0]), qs[1..]);
    }
  }

  lemma {:induction false} QueriesPreserveWellFormed(s: WorkflowState, qs: seq<Query>)
    requires WellFormed(s)
    ensures WellFormed(ApplyQueries(s, qs))
    ensures s.searchSelection.Some? ==> ApplyQueries(s, qs).searchSelection.Some?
    decreases |qs|
  {
    if |qs| > 0 {
      QueriesPreserveWellFormed(ApplyQuery(s, qs[0]), qs[1..]);
    }
  }

  // ---------------------------------------------------------------------
  // One pass of the loop, status by status

  /** From pending, a failed refine ends the loop in error. */
  lemma PendingRefineFails(s: WorkflowState, e: ErrorValue, during: seq<Query>)
    requires s.status == Pending
    ensures var r := StepSpec(s, Failure(e), during);
      r.state.status == Error && r.control == Exit &&
      r.invoked == Some(RefineCall(s.initQuery)) &&
      r.state.refinementQuestions == s.refinementQuestions &&
      r.state.searchResults == s.searchResults &&
      r.state.refinementAnswers == ApplyQueries(s, during).refinementAnswers &&
      r.state.searchSelection == ApplyQueries(s, during).searchSelection
  {
    QueriesKeepOtherFields(s, during);
  }

  /** From pending, a refine that asks questions stores them and waits for
      answers; the results it returned are not stored. */
  lemma PendingNeedsRefinement(s: WorkflowState, output: RefineOutput, during: seq<Query>)
    requires s.status == Pending && |output.refineQuestions| > 0
    ensures var r := StepSpec(s, Success(output), during);
      r.state.status == AwaitsRefinement && r.control == Continue &&
      r.invoked == Some(RefineCall(s.initQuery)) &&
      r.state.refinementQuestions == output.refineQuestions &&
      r.state.searchResults == s.searchResults &&
      r.state.refinementAnswers == ApplyQueries(s, during).refinementAnswers &&
      r.state.searchSelection == ApplyQueries(s, during).searchSelection
  {
    QueriesKeepOtherFields(s, during);
  }

  /** From pending, a refine that asks nothing goes straight to the
      selection, with its results stored. */
  lemma PendingSkipsRefinement(s: WorkflowState, output: RefineOutput, during: seq<Query>)
    requires s.status == Pending && |output.refineQuestions| == 0
    ensures var r := StepSpec(s, Success(output), during);
      r.state.status == AwaitsSelection && r.control == Continue &&
      r.invoked == Some(RefineCall(s.initQuery)) &&
      r.state.searchResults == output.searchResults &&
      r.state.refinementQuestions == s.refinementQuestions &&
      r.state.refinementAnswers == ApplyQueries(s, during).refinementAnswers &&
      r.state.searchSelection == ApplyQueries(s, during).searchSelection
  {
    QueriesKeepOtherFields(s, during);
  }

  /** While waiting for answers, a pass calls no activity and never reaches
      the selection: with enough answers it marks the state refined, and
      otherwise it sleeps and changes nothing. */
  lemma AwaitingRefinement(s: WorkflowState, outcome: Outcome<RefineOutput>, during: seq<Query>)
    requires s.status == AwaitsRefinement
    ensures var r := StepSpec(s, outcome, during);
      r.invoked == None &&
      (|s.refinementAnswers| >= |s.refinementQuestions| ==> r.state == s.(status := Refined) && r.control == Continue) &&
      (|s.refinementAnswers| < |s.refinementQuestions| ==> r.state == s && r.control == Sleep(3))
  {
  }

  /** From refined, the search is called with the enriched query and the pass
      always ends awaiting a selection: a failed search's error status is
      overwritten and the results become empty. */
  lemma RefinedSearches(s: WorkflowState, outcome: Outcome<RefineOutput>, during: seq<Query>)
    requires s.status == Refined && |s.refinementAnswers| <= |s.refinementQuestions|
    ensures var r := StepSpec(s, outcome, during);
      r.state.status == AwaitsSelection && r.control == Continue &&
      r.invoked == Some(SearchCall(EnrichedQuery(s.initQuery, s.refinementQuestions, s.refinementAnswers))) &&
      r.state.searchResults == (if outcome.Success? then outcome.value.searchResults else []) &&
      r.state.refinementQuestions == s.refinementQuestions &&
      r.state.refinementAnswers == ApplyQueries(s, during).refinementAnswers &&
      r.state.searchSelection == ApplyQueries(s, during).searchSelection
  {
    QueriesKeepOtherFields(s, during);
  }

  /** The loop body never writes the answers or the selection: a pass that
      calls no activity leaves them as they were, and a pass that calls one
      leaves them as the queries served while it waited set them. */
  lemma PassKeepsAnswersAndSelection(s: WorkflowState, outcome: Outcome<RefineOutput>, during: seq<Query>)
    ensures var r := StepSpec(s, outcome, []);
      r.state.refinementAnswers == s.refinementAnswers && r.state.searchSelection == s.searchSelection
    ensures var r := StepSpec(s, outcome, during);
      r.invoked.None? ==>
        r.state.refinementAnswers == s.refinementAnswers && r.state.searchSelection == s.searchSelection
    ensures var r := StepSpec(s, outcome, during);
      r.invoked.Some? ==>
        r.state.refinementAnswers == ApplyQueries(s, during).refinementAnswers &&
        r.state.searchSelection == ApplyQueries(s, during).searchSelection
  {
  }

  /** From refined with an answer that has no question, building the
      enriched query panics before anything changes. */
  lemma RefinedWithExtraAnswersPanics(s: WorkflowState, outcome: Outcome<RefineOutput>, during: seq<Query>)
    requires s.status == Refined && |s.refinementAnswers| > |s.refinementQuestions|
    ensures StepSpec(s, outcome, during) == StepResult(s, Panic, None)
  {
  }

  /** A selection made while the search is in flight is stored, but its
      completed status is overwritten when the search returns. */
  lemma SelectionDuringSearchIsOverwritten(s: WorkflowState, outcome: Outcome<RefineOutput>, i: Int64)
    requires s.status == Refined && |s.refinementAnswers| <= |s.refinementQuestions|
    ensures var r := StepSpec(s, outcome, [SelectionQuery(i)]);
      r.state.searchSelection == Some(i) && r.state.status == AwaitsSelection
  {
    assert ApplyQueries(s, [SelectionQuery(i)]) == ApplyQuery(s, SelectionQuery(i));
  }

  /** The loop is left exactly when the status was already completed or
      error, or a refine from pending failed; and it is then completed or in
      error. The branch that sleeps one second on completion is never taken. */
  lemma StepExits(s: WorkflowState, outcome: Outcome<RefineOutput>, during: seq<Query>)
    ensures var r := StepSpec(s, outcome, during);
      (r.control == Exit <==>
        s.status == Completed || s.status == Error || (s.status == Pending && outcome.Failure?)) &&
      (r.control == Exit ==> r.state.status == Completed || r.state.status == Error) &&
      r.control != Sleep(1)
  {
  }

  lemma StepPreservesWellFormed(s: WorkflowState, outcome: Outcome<RefineOutput>, during: seq<Query>)
    requires WellFormed(s)
    ensures WellFormed(StepSpec(s, outcome, during).state)
    ensures s.searchSelection.Some? ==> StepSpec(s, outcome, during).state.searchSelection.Some?
    ensures StepSpec(s, outcome, during).state.initQuery == s.initQuery
  {
    QueriesPreserveWellFormed(s, during);
    QueriesKeepOtherFields(s, during);
  }

  // ---------------------------------------------------------------------
  // The whole run

  /** The initial query is never changed once the instance is started. */
  lemma {:induction false} ReplayKeepsInitQuery(s: WorkflowState, events: seq<Event>)
    ensures Replay(s, events).0.initQuery == s.initQuery
    decreases |events|
  {
    if |events| > 0 {
      match events[0]
      case Deliver(q) =>
        ReplayKeepsInitQuery(ApplyQuery(s, q), events[1..]);
      case Iterate(outcome, during) =>
        QueriesKeepOtherFields(s, during);
        ReplayKeepsInitQuery(StepSpec(s, outcome, during).state, events[1..]);
    }
  }

  /** The loop is only ever left when the status is completed or error. */
  lemma {:induction false} ReplayExitsOnlyWhenDone(s: WorkflowState, events: seq<Event>)
    ensures var (r, phase) := Replay(s, events);
      phase == Exited ==> r.status == Completed || r.status == Error
    decreases |events|
  {
    if |events| > 0 {
      match events[0]
      case Deliver(q) =>
        ReplayExitsOnlyWhenDone(ApplyQuery(s, q), events[1..]);
      case Iterate(outcome, during) =>
        StepExits(s, outcome, during);
        ReplayExitsOnlyWhenDone(StepSpec(s, outcome, during).state, events[1..]);
    }
  }

  /** Every state an instance reaches is well formed, and a recorded
      selection is never removed. */
  lemma {:induction false} ReplayPreservesWellFormed(s: WorkflowState, events: seq<Event>)
    requires WellFormed(s)
    ensures WellFormed(Replay(s, events).0)
    ensures s.searchSelection.Some? ==> Replay(s, events).0.searchSelection.Some?
    decreases |events|
  {
    if |events| > 0 {
      match events[0]
      case Deliver(q) =>
        QueriesPreserveWellFormed(s, [q]);
        assert ApplyQueries(s, [q]) == ApplyQuery(s, q);
        ReplayPreservesWellFormed(ApplyQuery(s, q), events[1..]);
      case Iterate(outcome, during) =>
        StepPreservesWellFormed(s, outcome, during);
        ReplayPreservesWellFormed(StepSpec(s, outcome, during).state, events[1..]);
    }
  }

  /** A new instance is well formed, so every state it reaches is too. */
  lemma InstanceIsWellFormed(initQuery: string, events: seq<Event>)
    ensures WellFormed(Replay(Initial(initQuery), events).0)
    ensures Replay(Initial(initQuery), events).0.initQuery == initQuery
  {
    ReplayPreservesWellFormed(Initial(initQuery), events);
    ReplayKeepsInitQuery(Initial(initQuery), events);
  }

  // ---------------------------------------------------------------------
  // The enriched query

  /** The enriched query begins with the user's initial query. */
  lemma EnrichedQueryStartsWithInitQuery(initQuery: string, questions: seq<string>, answers: seq<string>)
    requires |answers| <= |questions|
    ensures "Original query: " + initQuery <= EnrichedQuery(initQuery, questions, answers)
  {
    var head := "Original query: " + initQuery;
    var rest := " \\n\\n Additional context from clarifications: \\n" + Clarifications(questions, answers);
    assert EnrichedQuery(initQuery, questions, answers) == head + rest;
  }

  /** The first line is the first answer with the first question, and the
      rest are the remaining answers with the remaining questions. */
  lemma {:induction false} ClarificationsFirstLine(questions: seq<string>, answers: seq<string>)
    requires 0 < |answers| <= |questions|
    ensures Clarifications(questions, answers) ==
            Clarification(questions[0], answers[0]) + Clarifications(questions[1..], answers[1..])
    decreases |answers|
  {
    var n := |answers| - 1;
    if n == 0 {
      assert answers[..n] == [] && answers[1..] == [];
    } else {
      ClarificationsFirstLine(questions, answers[..n]);
      assert answers[..n][1..] == answers[1..][..n - 1];
      assert answers[..n][0] == answers[0];
      assert questions[1..][n - 1] == questions[n] && answers[1..][n - 1] == answers[n];
    }
  }

  /** Questions past the last answer are never consulted. */
  lemma {:induction false} UnansweredQuestionsIgnored(questions: seq<string>, more: seq<string>, answers: seq<string>)
    requires |answers| <= |questions|
    ensures Clarifications(questions + more, answers) == Clarifications(questions, answers)
    decreases |answers|
  {
    if |answers| > 0 {
      var n := |answers| - 1;
      UnansweredQuestionsIgnored(questions, more, answers[..n]);
      assert (questions + more)[n] == questions[n];
    }
  }

  /** Adding answers only appends to the enriched query. */
  lemma {:induction false} ClarificationsExtend(questions: seq<string>, answers: seq<string>, k: nat)
    requires k <= |answers| <= |questions|
    ensures Clarifications(questions, answers[..k]) <= Clarifications(questions, answers)
    decreases |answers|
  {
    if k < |answers| {
      var n := |answers| - 1;
      ClarificationsExtend(questions, answers[..n], k);
      assert answers[..n][..k] == answers[..k];
    } else {
      assert answers[..k] == answers;
    }
  }
}
