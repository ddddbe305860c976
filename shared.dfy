// Types shared by the interactive and the summarize workflows, and the
// abstract outcome of an external activity call.

module Shared {

  /** A video found by the search activity. */
  datatype SearchResult = SearchResult(title: string, url: string)

  /** What the refine and search activities return: follow-up questions
      (possibly none) and the videos found so far. */
  datatype RefineOutput = RefineOutput(refineQuestions: seq<string>, searchResults: seq<SearchResult>)

  /** A Go error value; its contents are opaque to the workflows. */
  datatype ErrorValue = ErrorValue(message: string)

  /** The observable result of one activity call: a value, or an error. */
  datatype Outcome<+T> = Success(value: T) | Failure(error: ErrorValue)

  datatype Option<+T> = None | Some(value: T)

  /** Go's int64. */
  newtype Int64 = x: int | -0x8000_0000_0000_0000 <= x < 0x8000_0000_0000_0000
}
