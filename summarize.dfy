// The summarize workflow: download the audio of one video, transcribe it,
// summarize the transcript while the output file is created, write the
// summary to that file and return the file's path. Every activity is given
// as a function from its arguments to its outcome; the workflow reports the
// calls it made, in the order it started them.

module Summarize {
  import opened Shared

  /** What the download activity produces: where the audio file is, and the
      fresh name the output file is to share with it. */
  datatype RetrieveAudioResult = RetrieveAudioResult(outputPath: string, fileName: string)

  /** The outcome each activity would have for given arguments. */
  datatype Activities = Activities(
    retrieveAudio: string -> Outcome<RetrieveAudioResult>,
    transcribeAudio: string -> Outcome<string>,
    summarizeTranscription: string -> Outcome<string>,
    createSummaryOutputFile: string -> Outcome<string>,
    outputSummaryToFile: (string, string) -> Outcome<bool>)

  /** One started activity, with its arguments. */
  datatype Call =
    | RetrieveAudio(url: string)
    | TranscribeAudio(filePath: string)
    | SummarizeTranscription(transcription: string)
    | CreateSummaryOutputFile(fileName: string)
    | OutputSummaryToFile(summary: string, outputFilePath: string)

  /** The error a started activity reports, or `None` when it succeeds. */
  function ErrorOf(acts: Activities, c: Call): (e: Option<ErrorValue>)
  {
    match c
    case RetrieveAudio(url) => Reported(acts.retrieveAudio(url))
    case TranscribeAudio(path) => Reported(acts.transcribeAudio(path))
    case SummarizeTranscription(text) => Reported(acts.summarizeTranscription(text))
    case CreateSummaryOutputFile(name) => Reported(acts.createSummaryOutputFile(name))
    case OutputSummaryToFile(summary, path) => Reported(acts.outputSummaryToFile(summary, path))
  }

  /** The error in an outcome, if it is a failure. */
  function Reported<T>(o: Outcome<T>): (e: Option<ErrorValue>)
  {
    match o
    case Success(_) => None
    case Failure(error) => Some(error)
  }

  /** The error of the first failing call in a series of calls. */
  function FirstError(acts: Activities, calls: seq<Call>): (e: Option<ErrorValue>)
    decreases |calls|
  {
    if |calls| == 0 then None
    else if ErrorOf(acts, calls[0]).Some? then ErrorOf(acts, calls[0])
    else FirstError(acts, calls[1..])
  }

  /** Calls that all succeeded do not decide the first error. */
  lemma {:induction false} FirstErrorSkipsSuccesses(acts: Activities, done: seq<Call>, rest: seq<Call>)
    requires forall k :: 0 <= k < |done| ==> ErrorOf(acts, done[k]).None?
    ensures FirstError(acts, done + rest) == FirstError(acts, rest)
    decreases |done|
  {
    if |done| > 0 {
      assert (done + rest)[0] == done[0] && (done + rest)[1..] == done[1..] + rest;
      assert forall k :: 0 <= k < |done| - 1 ==> done[1..][k] == done[k + 1];
      FirstErrorSkipsSuccesses(acts, done[1..], rest);
    } else {
      assert done + rest == rest;
    }
  }

  /** The path the pipeline produces when every stage succeeds, and `None`
      when some stage fails. */
  function PipelineOutput(url: string, acts: Activities): (path: Option<string>)
  {
    match acts.retrieveAudio(url)
    case Failure(_) => None
    case Success(audio) =>
      match acts.transcribeAudio(audio.outputPath)
      case Failure(_) => None
      case Success(text) =>
        match (acts.summarizeTranscription(text), acts.createSummaryOutputFile(audio.fileName))
        case (Success(summary), Success(path)) =>
          if acts.outputSummaryToFile(summary, path).Success? then Some(path) else None
        case _ => None
  }

  /** The workflow itself. Each stage's input comes from the earlier stages,
      the summary and the output file are both started before either is
      awaited, and the first failure awaited ends the run with an empty path
      and that failure's error. */
  method SummarizeWorkflow(url: string, acts: Activities)
    returns (outputPath: string, err: Option<ErrorValue>, invoked: seq<Call>)
    // the run stops at the first awaited failure, and reports it
    ensures err == FirstError(acts, invoked)
    ensures err.Some? ==> outputPath == ""
    ensures err.None? <==> PipelineOutput(url, acts).Some?
    ensures err.None? ==> outputPath == PipelineOutput(url, acts).value
    // stage by stage: which calls were started, with which arguments
    ensures |invoked| >= 1 && invoked[0] == RetrieveAudio(url)
    ensures var audio := acts.retrieveAudio(url);
      (audio.Failure? ==> |invoked| == 1) &&
      (audio.Success? ==> |invoked| >= 2 && invoked[1] == TranscribeAudio(audio.value.outputPath))
    ensures var audio := acts.retrieveAudio(url);
      audio.Success? ==>
        var text := acts.transcribeAudio(audio.value.outputPath);
        (text.Failure? ==> |invoked| == 2) &&
        (text.Success? ==>
          |invoked| >= 4 &&
          invoked[2] == SummarizeTranscription(text.value) &&
          invoked[3] == CreateSummaryOutputFile(audio.value.fileName))
    ensures var audio := acts.retrieveAudio(url);
      audio.Success? ==>
        var text := acts.transcribeAudio(audio.value.outputPath);
        text.Success? ==>
          var summary := acts.summarizeTranscription(text.value);
          var path := acts.createSummaryOutputFile(audio.value.fileName);
          (summary.Failure? || path.Failure? ==> |invoked| == 4) &&
          (summary.Success? && path.Success? ==>
            invoked == [RetrieveAudio(url), TranscribeAudio(audio.value.outputPath),
                        SummarizeTranscription(text.value), CreateSummaryOutputFile(audio.value.fileName),
                        OutputSummaryToFile(summary.value, path.value)])
  {
    invoked := [RetrieveAudio(url)];
    var retrieved := acts.retrieveAudio(url);
    if retrieved.Failure? {
      return "", Some(retrieved.error), invoked;
    }
    var retrieveAudioResult := retrieved.value;

    invoked := invoked + [TranscribeAudio(retrieveAudioResult.outputPath)];
    var transcribed := acts.transcribeAudio(retrieveAudioResult.outputPath);
    if transcribed.Failure? {
      return "", Some(transcribed.error), invoked;
    }
    var transcriptionText := transcribed.value;

    // both futures are started before either is awaited
    invoked := invoked + [SummarizeTranscription(transcriptionText), CreateSummaryOutputFile(retrieveAudioResult.fileName)];
    var summarizeFuture := acts.summarizeTranscription(transcriptionText);
    var createFileFuture := acts.createSummaryOutputFile(retrieveAudioResult.fileName);

    FirstErrorSkipsSuccesses(acts, invoked[..2], invoked[2..]);
    assert invoked[..2] + invoked[2..] == invoked;
    if summarizeFuture.Failure? {
      return "", Some(summarizeFuture.error), invoked;
    }
    var summary := summarizeFuture.value;

    if createFileFuture.Failure? {
      return "", Some(createFileFuture.error), invoked;
    }
    var summaryOutputPath := createFileFuture.value;

    invoked := invoked + [OutputSummaryToFile(summary, summaryOutputPath)];
    FirstErrorSkipsSuccesses(acts, invoked[..4], invoked[4..]);
    assert invoked[..4] + invoked[4..] == invoked;
    var written := acts.outputSummaryToFile(summary, summaryOutputPath);
    if written.Failure? {
      return "", Some(written.error), invoked;
    }

    outputPath := summaryOutputPath;
    return outputPath, None, invoked;
  }

  /** Starts the workflow from a client and waits for its result. A failure to
      start is returned; once started, the run's own error is dropped and the
      path is whatever the run produced, which is empty when it failed. */
  method ExecuteSummarizeWorkflow(url: string, acts: Activities, startError: Option<ErrorValue>)
    returns (outputPath: string, err: Option<ErrorValue>, invoked: seq<Call>)
    ensures startError.Some? ==> outputPath == "" && err == startError && invoked == []
    ensures startError.None? ==> err.None? && |invoked| > 0
    ensures startError.None? ==>
      outputPath == (match PipelineOutput(url, acts) case Some(path) => path case None => "")
  {
    if startError.Some? {
      return "", startError, [];
    }
    var path, runError, calls := SummarizeWorkflow(url, acts);
    // the run's error is not looked at; a failed run decodes no path
    outputPath := if runError.None? then path else "";
    return outputPath, None, calls;
  }
}
