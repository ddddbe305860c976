# Interactive and summarize workflows, modelled in Dafny

This project models the two workflows at the centre of a video-summary service.

**The interactive workflow** holds one conversation with a user. The conversation is a record with these fields:

- the status: `pending`, `awaits_refinement`, `refined`, `awaits_selection`, `error` or `completed`;
- the user's initial query;
- the refinement questions and the user's answers;
- the search results;
- the user's selection.

The workflow answers three queries:

- the state query returns the record;
- the answer query stores answers;
- the selection query stores a choice.

A loop drives the conversation through the refine and search activities until the status is `completed` or `error`.

**The summarize workflow** runs these stages in order:

1. download the audio of the chosen video;
2. transcribe it;
3. summarize the transcript while the output file is being created;
4. write the summary to that file.

It returns the file's path. The first failure ends the run.

## Files and how they are organised

- `shared.dfy` (module `Shared`) holds the shared types:
  - a search result;
  - the refine/search output;
  - Go's `int64`;
  - `Outcome`, either `Success(value)` or `Failure(error)`, which stands for the result of any activity call.
- `interactive.dfy` (module `Interactive`) holds three things:
  - the state record;
  - a pure specification of every transition (`ApplyQuery`, `StepSpec`, `Replay`, `EnrichedQuery`);
  - the class `InteractiveWorkflow`. Its fields are the state record, and its methods change them in place. Each method is proved against the specification function for its transition.
- `interactive_properties.dfy` (module `InteractiveProperties`) proves what the transitions promise.
- `summarize.dfy` (module `Summarize`) holds the summarize workflow and its client-side starter.
- `scenarios.dfy` (module `Scenarios`) holds client walkthroughs. They derive what a driver observes from the contracts alone.

### How the environment is modelled

**Activities.** The model does not contain the activities themselves. In the interactive workflow, each pass of the loop gets the outcome of the activity it calls as a parameter, and reports which activity it called and with which argument (`Invocation`). In the summarize workflow, each activity is a function from its arguments to its outcome, and the workflow returns the list of calls it started (`Call`).

**Queries that arrive while a pass waits.** The workflow runtime answers queries whenever the workflow is blocked, and that includes while a pass waits for its activity. The handlers change the very variables the pass writes after the activity returns. The model therefore gives each pass the queries that arrive during that wait (`Iterate(outcome, during)`). This lets it state the lost updates exactly. For example, a selection made while the search is in flight keeps its index but loses its `completed` status (`SelectionDuringSearchIsOverwritten`).

### Behaviour pinned down as the code has it

- The answer handler replaces the stored answers and sets the status to `refined` immediately, whatever the status was. It accepts any number of answers.
- The selection handler accepts any `int64`, in any status, with no range check against the results.
- When the search fails, the `error` status is overwritten at once. The pass ends in `awaits_selection` with empty results, because the output keeps its zero value.
- The loop's branch for `completed` is never taken, because the loop condition has already left the loop (`StepExits`).
- The enriched query looks up each question by the position of its answer. With more answers than questions this indexes out of range. The model represents that panic as `Panic`, which leaves the state unchanged.
- The first line of the enriched query is a raw string literal, so its `\n` are a backslash and an `n`, not line breaks. The per-answer lines end in real newlines.
- The `err` declared inside the loop shadows the workflow's named result. The interactive workflow therefore returns no error even when the refine fails; the failure is visible only as the `error` status.
- `ExecuteSummarizeWorkflow` drops the run's error. Once the run has started, it returns no error, and its path is empty when the run failed.

## Model

| member | source | states |
|---|---|---|
| `Interactive.Status.Name` | internal/summary/workflow/interactive.go:19-24 | each status maps to its string constant, and distinct statuses have distinct strings (`StatusNamesDistinct`), so the enumeration stands for Go's string type, including the bare `"error"` literal at line 106 |
| `Interactive.StatusNamesDistinct` | internal/summary/workflow/interactive.go:19-24 | two different statuses never share a string, so comparing strings and comparing statuses agree |
| `Interactive.InteractiveWorkflow.constructor` | internal/summary/workflow/interactive.go:43-52 | a new instance is `pending` with the given initial query, no questions, answers or results, and no selection |
| `Interactive.InteractiveWorkflow.QueryState` | internal/summary/workflow/interactive.go:54-56 | the state query returns every field as it is and changes nothing |
| `Interactive.InteractiveWorkflow.Answer` | internal/summary/workflow/interactive.go:62-66 | the answers replace the stored ones and the status becomes `refined` whatever it was; everything else is unchanged; the handler acknowledges |
| `Interactive.InteractiveWorkflow.SelectSearchResult` | internal/summary/workflow/interactive.go:72-77 | the index is stored unchecked and the status becomes `completed` whatever it was; everything else is unchanged |
| `Interactive.InteractiveWorkflow.ServeQueries` | internal/summary/workflow/interactive.go:62-77 | queries handled in order leave the fields equal to applying each handler in turn |
| `Interactive.InteractiveWorkflow.Step` | internal/summary/workflow/interactive.go:89-147 | one pass of the loop changes the fields, and reports how it ends and which activity it called, exactly as the transition specification says |
| `Interactive.InteractiveWorkflow.Run` | internal/summary/workflow/interactive.go:89-147 | the loop driven by a series of queries and passes ends in the state and phase that replaying those events on the specification gives |
| `Interactive.BuildEnrichedQuery` | internal/summary/workflow/interactive.go:124-128 | appending one line per answer yields the enriched query exactly when every answer has a question at its position, and panics (`None`) otherwise |
| `InteractiveProperties.QueriesKeepOtherFields` | internal/summary/workflow/interactive.go:62-77 | no series of queries changes the initial query, the questions or the search results |
| `InteractiveProperties.LastQueryWins` | internal/summary/workflow/interactive.go:62-77 | after a series of queries, the last one decides the status, and the stored answers or the stored index with it |
| `InteractiveProperties.SelectionOnlyBySelectionQuery` | internal/summary/workflow/interactive.go:62-66 | answer queries alone never change the stored selection |
| `InteractiveProperties.QueriesPreserveWellFormed` | internal/summary/workflow/interactive.go:62-77 | queries keep both state invariants (waiting for answers implies questions were asked; completed implies a selection), and never remove a selection |
| `InteractiveProperties.PendingRefineFails` | internal/summary/workflow/interactive.go:100-108 | from `pending`, a failed refine, called with the initial query, sets `error` and leaves the loop; questions and results are untouched, and the answers and selection are those the queries served during the call left |
| `InteractiveProperties.PendingNeedsRefinement` | internal/summary/workflow/interactive.go:110-114 | from `pending`, a refine with questions stores them and moves to `awaits_refinement`; the results are untouched, and the answers and selection are those the queries served during the call left |
| `InteractiveProperties.PendingSkipsRefinement` | internal/summary/workflow/interactive.go:116-118 | from `pending`, a refine without questions moves straight to `awaits_selection` and replaces the results; the questions are untouched, and the answers and selection are those the queries served during the call left |
| `InteractiveProperties.AwaitingRefinement` | internal/summary/workflow/interactive.go:95-98 | while awaiting refinement no activity is called and `awaits_selection` is never reached: with at least as many answers as questions the state becomes `refined`, otherwise the pass sleeps and changes nothing |
| `InteractiveProperties.RefinedSearches` | internal/summary/workflow/interactive.go:121-138 | from `refined`, the search is called with the enriched query, and the pass always ends in `awaits_selection`; the results are the search's, or empty when it failed; the questions are untouched, and the answers and selection are those the queries served during the call left |
| `InteractiveProperties.PassKeepsAnswersAndSelection` | internal/summary/workflow/interactive.go:89-147 | the loop body never writes the answers or the selection: a pass that calls no activity leaves them as they were, and a pass that calls one leaves them as the queries served during the wait set them |
| `InteractiveProperties.RefinedWithExtraAnswersPanics` | internal/summary/workflow/interactive.go:124-128 | from `refined` with more answers than questions, the pass panics before calling anything or changing the state |
| `InteractiveProperties.SelectionDuringSearchIsOverwritten` | internal/summary/workflow/interactive.go:130-137 | a selection made while the search is in flight keeps its index, but the status ends `awaits_selection`, not `completed` |
| `InteractiveProperties.StepExits` | internal/summary/workflow/interactive.go:89-144 | a pass leaves the loop exactly when the status is `completed` or `error`, or a refine from `pending` fails, and the status is then `completed` or `error`; the one-second sleep on `completed` never happens |
| `InteractiveProperties.StepPreservesWellFormed` | internal/summary/workflow/interactive.go:89-147 | every pass keeps both state invariants and the initial query, and never removes a selection |
| `InteractiveProperties.ReplayKeepsInitQuery` | internal/summary/workflow/interactive.go:52-147 | no series of queries and passes changes the initial query |
| `InteractiveProperties.ReplayExitsOnlyWhenDone` | internal/summary/workflow/interactive.go:89-93 | the loop is left only when the status is `completed` or `error` |
| `InteractiveProperties.ReplayPreservesWellFormed` | internal/summary/workflow/interactive.go:89-147 | every state reached from a well-formed one is well formed, and a recorded selection stays recorded |
| `InteractiveProperties.InstanceIsWellFormed` | internal/summary/workflow/interactive.go:43-147 | every state a new instance reaches is well formed and keeps the initial query it was started with |
| `InteractiveProperties.EnrichedQueryStartsWithInitQuery` | internal/summary/workflow/interactive.go:124 | the enriched query begins with `Original query: ` followed by the initial query |
| `InteractiveProperties.ClarificationsFirstLine` | internal/summary/workflow/interactive.go:126-128 | the clarification lines are the first answer with the first question, followed by the lines for the remaining pairs, in order |
| `InteractiveProperties.UnansweredQuestionsIgnored` | internal/summary/workflow/interactive.go:126-128 | questions beyond the last answer do not affect the enriched query |
| `InteractiveProperties.ClarificationsExtend` | internal/summary/workflow/interactive.go:126-128 | the lines for a prefix of the answers are a prefix of the lines for all of them |
| `Summarize.SummarizeWorkflow` | internal/summary/workflow/summerize.go:17-92 | retrieval is called on the URL and transcription on its output path; summarize on the transcript and create-file on the file name are both started; write gets exactly the summary and the created path; the first awaited failure ends the run with an empty path and that error, and no later stage starts; success returns the created path |
| `Summarize.ExecuteSummarizeWorkflow` | internal/summary/workflow/summerize.go:94-117 | a start failure is returned with an empty path and nothing runs; once started, no error is returned, and the path is the run's on success and empty on failure |

## Left out

- Activity bodies are not modelled: the LLM agents, the video search API, the downloader subprocess, the transcription and chat calls, and file creation and writing. Each is an abstract outcome, because they are foreign calls and I/O.
- The command-line driver and the worker bootstrap are not part of this model. They are terminal UI and runtime setup.
- Activity timeouts, the length of the idle sleeps and the real concurrency of the two futures are not modelled. The futures are awaited in a fixed order, so a sequential model gives the same results.
- Durable history and replay are not modelled. In particular, changes made by query handlers are not recorded in the workflow's history, so a replayed instance would lose them. The model keeps them.
- Handler registration failing at start-up is not modelled. The workflow's own return value is not modelled either; it is always nil once the handlers are registered.
- A panic is a final phase of `Run`. The runtime's retries of the failed workflow task are not modelled.
- Queries that arrive during a pass that calls no activity are not modelled separately. Such a pass either does not block at all or blocks only in its closing sleep. Nothing after that sleep in the pass reads or writes the state. So queries served during the sleep have the same effect as queries delivered between passes.
- `ExecuteSummarizeWorkflow`: the workflow ID built from the clock and the task queue name are left out. A transport failure while waiting for the result is not modelled apart from a failed run; both leave the path empty.
- The status is an enumeration rather than a string. `Status.Name` gives the string the workflow stores for each value.
