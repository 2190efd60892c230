/** The listener registered on the banking job: stamps the start, checks the end. */
module JobCompletionListener {
  import opened Batch
  import opened Records

  const JOB_START_TIME: string := "jobStartTime"

  /**
   * The part of a job execution the listener touches. The execution's id,
   * which the listener only logs, is left out with the logging.
   */
  class JobExecution {
    var status: BatchStatus
    var context: map<string, int>

    constructor ()
      ensures status == STARTING && context == map[]
    {
      status := STARTING;
      context := map[];
    }
  }

  /** Records the wall-clock start (milliseconds, supplied by the caller) in the execution context. */
  method BeforeJob(execution: JobExecution, nowMillis: int)
    modifies execution`context
    ensures execution.context == old(execution.context)[JOB_START_TIME := nowMillis]
    ensures JOB_START_TIME in execution.context
    ensures forall k :: k in old(execution.context) && k != JOB_START_TIME ==>
                          k in execution.context && execution.context[k] == old(execution.context)[k]
  {
    execution.context := execution.context[JOB_START_TIME := nowMillis];
  }

  /** What `afterJob` does: report a run that is not successful, or read every transaction back. */
  datatype AfterJobReport =
    | NotSuccessful(status: BatchStatus)
    | VerifiedResults(found: seq<BankingTransaction>)
    | Failed(status: BatchStatus)

  /**
   * Branches on the final status exactly as written: an early return, then a
   * guard that is the negation of the first, then an `else` that no status reaches.
   * Of the execution it consults only the status.
   */
  function AfterJob(status: BatchStatus, table: seq<BankingTransaction>): (report: AfterJobReport)
    ensures report.NotSuccessful? <==> status.IsRunning() || status.IsUnsuccessful()
    ensures report.NotSuccessful? ==> report.status == status
    ensures report.VerifiedResults? <==> status == COMPLETED || status == STOPPED
    ensures report.VerifiedResults? ==> report.found == table
    ensures !report.Failed?
  {
    if status.IsRunning() || status.IsUnsuccessful() then
      NotSuccessful(status)
    else if !status.IsRunning() && !status.IsUnsuccessful() then
      VerifiedResults(table)
    else
      Failed(status)
  }
}
