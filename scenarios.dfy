// Clients of the two workflows: each walks through one conversation or one
// pipeline run and checks, from the contracts alone, what a driver would
// observe.

module Scenarios {
  import opened Shared
  import opened Interactive
  import opened Summarize

  /** Refine asks two questions; the driver answers both; the search returns
      results; the driver picks the first one. */
  method RefinementRound()
  {
    var wf := new InteractiveWorkflow("Rust async");
    var questions := ["Which runtime?", "How long?"];
    var control, invoked := wf.Step(Success(RefineOutput(questions, [])), []);
    var s := wf.QueryState();
    assert s.status == AwaitsRefinement && s.refinementQuestions == questions;
    assert invoked == Some(RefineCall("Rust async")) && control == Continue;

    // no answers yet: the loop sleeps and calls nothing
    control, invoked := wf.Step(Failure(ErrorValue("not called")), []);
    assert control == Sleep(3) && invoked == None && wf.status == AwaitsRefinement;

    var answers := ["topic=tokio", "duration=medium"];
    var ok := wf.Answer(answers);
    s := wf.QueryState();
    assert s.status == Refined;

    var results := [SearchResult("Tokio internals", "https://example.org/a"), SearchResult("Async Rust", "https://example.org/b")];
    control, invoked := wf.Step(Success(RefineOutput([], results)), []);
    assert wf.status == AwaitsSelection && wf.searchResults == results;
    assert answers[..1] == ["topic=tokio"] && answers[..1][..0] == [];
    assert Clarifications(questions, answers[..1]) == Clarification("Which runtime?", "topic=tokio");
    assert Clarifications(questions, answers) ==
      Clarification("Which runtime?", "topic=tokio") + Clarification("How long?", "duration=medium");
    assert invoked == Some(SearchCall(EnrichedQuery("Rust async", questions, answers)));
    assert invoked == Some(SearchCall(
      Preamble("Rust async")
      + (Clarification("Which runtime?", "topic=tokio") + Clarification("How long?", "duration=medium"))));

    ok := wf.SelectSearchResult(1);
    control, invoked := wf.Step(Failure(ErrorValue("not called")), []);
    assert control == Exit && wf.status == Completed && wf.searchSelection == Some(1);
  }

  /** Refine asks nothing: the run goes straight to the selection, and a
      selection between passes ends the loop. */
  method NoRefinementNeeded()
  {
    var wf := new InteractiveWorkflow("exact video title, long, by date");
    var results := [SearchResult("The video", "https://example.org/v")];
    var events := [
      Iterate(Success(RefineOutput([], results)), []),
      Deliver(SelectionQuery(1)),
      Iterate(Failure(ErrorValue("not called")), [])];
    ghost var start := wf.Snapshot();
    var phase := wf.Run(events);
    ghost var waiting := start.(status := AwaitsSelection, searchResults := results);
    assert Replay(start, events) == Replay(waiting, events[1..]);
    assert events[1..][1..] == [events[2]];
    assert Replay(waiting, events[1..]) == Replay(waiting.(status := Completed, searchSelection := Some(1)), [events[2]]);
    assert phase == Exited && wf.status == Completed;
    assert wf.refinementQuestions == [] && wf.searchResults == results;
  }

  /** A failed search still ends awaiting a selection, with no results. */
  method FailedSearch()
  {
    var wf := new InteractiveWorkflow("q");
    var control, invoked := wf.Step(Success(RefineOutput(["Why?"], [])), []);
    var ok := wf.Answer(["because"]);
    control, invoked := wf.Step(Failure(ErrorValue("search failed")), []);
    assert control == Continue && wf.status == AwaitsSelection && wf.searchResults == [];
  }

  /** More answers than questions: building the enriched query panics. */
  method TooManyAnswers()
  {
    var wf := new InteractiveWorkflow("q");
    var ok := wf.Answer(["unasked"]);
    var control, invoked := wf.Step(Success(RefineOutput([], [])), []);
    assert control == Panic && invoked == None && wf.status == Refined;
  }

  /** Every stage succeeds: the created file's path is returned. */
  method PipelineSucceeds()
  {
    var acts := Activities(
      url => Success(RetrieveAudioResult("/out/id.mp3", "id")),
      path => Success("transcript"),
      text => Success("# Summary"),
      name => Success("/out/id.md"),
      (summary, path) => Success(true));
    var outputPath, err, invoked := SummarizeWorkflow("https://example.org/v", acts);
    assert err == None && outputPath == "/out/id.md";
    assert invoked[4] == OutputSummaryToFile("# Summary", "/out/id.md");
  }

  /** Retrieval fails: the error is returned and nothing else is started. */
  method RetrievalFails()
  {
    var acts := Activities(
      url => Failure(ErrorValue("invalid url")),
      path => Success("transcript"),
      text => Success("# Summary"),
      name => Success("/out/id.md"),
      (summary, path) => Success(true));
    var outputPath, err, invoked := SummarizeWorkflow("not a url", acts);
    assert err == Some(ErrorValue("invalid url")) && outputPath == "" && invoked == [RetrieveAudio("not a url")];

    var clientPath, clientErr, _ := ExecuteSummarizeWorkflow("not a url", acts, None);
    assert clientErr == None && clientPath == "";
  }
}
