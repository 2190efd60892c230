/** Vocabulary of the batch framework that the banking and log jobs are wired into. */
module Batch {

  datatype Option<T> = None | Some(value: T)

  /** What a tasklet answers after one call: call me again, or done. */
  datatype RepeatStatus = CONTINUABLE | FINISHED

  /** Status of a job execution, constructors in the framework's declaration order. */
  datatype BatchStatus = COMPLETED | STARTING | STARTED | STOPPING | STOPPED | FAILED | ABANDONED | UNKNOWN
  {
    /** The execution is still on its way (starting, started or stopping). */
    predicate IsRunning() {
      this == STARTING || this == STARTED || this == STOPPING
    }

    /** FAILED and every status declared after it. */
    predicate IsUnsuccessful() {
      this == FAILED || this == ABANDONED || this == UNKNOWN
    }
  }

  /**
   * Exit code a step reports to the flow when its work completed normally.
   * The flow's transitions match on this string; the job's own status is
   * the `BatchStatus` value COMPLETED, a separate notion.
   */
  const EXIT_COMPLETED: string := "COMPLETED"

  /** A flat-file reader built with `linesToSkip(1)`: the header line never becomes an item. */
  function SkipHeader<T>(lines: seq<T>): (rows: seq<T>)
    ensures |lines| == 0 ==> rows == []
    ensures |lines| > 0 ==> |rows| == |lines| - 1
    ensures forall i :: 0 <= i < |rows| ==> rows[i] == lines[i + 1]
  {
    if |lines| == 0 then [] else lines[1..]
  }
}
