# Banking and log batch jobs, modelled in Dafny

This project models the business rules and the flow wiring of two batch jobs
that a Spring Batch application hands to the framework.

**bankingTransactionJob.** The job reads transactions from a CSV file. The field
mapper tags every transaction `PENDING`. A validation processor drops every
transaction whose amount is negative. A chunk step of size 5 writes the
survivors. A decider then counts the `PENDING` rows. It answers `PROCESS` or
`NO_PENDING`. `PROCESS` leads to a step that reads the `PENDING` rows through a
paging reader, five per page, and sets each row it reads to `PROCESSED`.
`NO_PENDING` leads to a tasklet that does nothing. A listener stamps the start time into
the execution context before the job runs. After the job it either reports an
unsuccessful status or reads every transaction back.

**logAggregationJob.** The job imports log lines unchanged, in chunks of 5. A
tasklet then groups the entries by level and calendar date and appends one
summary per group, with the group's size.

Modules:

- `Batch` (batch.dfy): framework vocabulary. It holds `BatchStatus` with the
  framework's `isRunning`/`isUnsuccessful`, `RepeatStatus`, the header skip of a
  flat-file reader, and `Option`.
- `ChunkOriented` (chunking.dfy): the chunk step. The processor is applied to
  the source's items in order, and the items are cut into chunks of at most
  `size`. Each chunk's survivors are written as one batch.
- `Flow` (flow.dfy): a job as a graph of named nodes, plus a walk over it.
  An exit token that no transition accepts fails the job (`FAILED`).
- `Records` (records.dfy): the entity shapes, as values.
- `TransactionDecider`, `BankingConfig`, `JobCompletionListener`
  (transaction_decider.dfy, banking_config.dfy, job_listener.dfy): the banking job.
- `LogAggregation`, `LogBatchConfiguration` (log_aggregation.dfy,
  log_config.dfy): the log job. The tasklet changes the store step by step, so it
  is a method of the class `LogStore`, whose fields are the two tables.

The job is modelled as configured (`RunBankingJob`). Its paging reader re-runs
its query for every page, so the process step skips rows (see "## Findings").
The job as evidently intended is modelled beside it (`RunIntendedBankingJob`).
There, the process step marks every row that is `PENDING` when it starts.

`afterJob` takes the verification branch for `COMPLETED` and also for `STOPPED`.
That is because the framework counts `STOPPED` as neither running nor
unsuccessful. `AfterJob` states this.

## Model

| member | source | states |
|---|---|---|
| `BankingConfig.MapTransactionFieldSet` | src/main/java/com/learn/springbatchexample/banking/BatchConfig.java:48-61 | the mapped transaction has status `PENDING`; account number, amount and date are copied from the line |
| `BankingConfig.ReadTransactions` | src/main/java/com/learn/springbatchexample/banking/BatchConfig.java:41-63 | the header line is skipped; every later line yields exactly one mapped transaction, in file order |
| `BankingConfig.ValidateTransaction` | src/main/java/com/learn/springbatchexample/banking/BatchConfig.java:66-75 | a transaction is dropped exactly when its amount is negative; otherwise the same, unmodified record passes |
| `BankingConfig.ImportStep` | src/main/java/com/learn/springbatchexample/banking/BatchConfig.java:94-103 | the table after the import is the old table followed by exactly the non-negative transactions read, in file order |
| `BankingConfig.ImportWritesNonNegativeRows` | src/main/java/com/learn/springbatchexample/banking/BatchConfig.java:94-103 | the import writes exactly the non-negative transactions read (checked against an independent filter), in input order; every one is `PENDING`; each chunk reads 1 to 5 items |
| `BankingConfig.ImportAccounting` | src/main/java/com/learn/springbatchexample/banking/BatchConfig.java:97-101 | lines read after the header = transactions written + transactions filtered |
| `BankingConfig.ImportedRowsLeadToProcess` | src/main/java/com/learn/springbatchexample/banking/BatchConfig.java:167-175 | if the import writes at least one row, the decider answers `PROCESS`, because imported rows are `PENDING` |
| `BankingConfig.MarkProcessed` | src/main/java/com/learn/springbatchexample/banking/BatchConfig.java:117-124 | the status processor never filters; it sets `PROCESSED` and keeps account number, amount and date |
| `BankingConfig.PendingPositions` | src/main/java/com/learn/springbatchexample/banking/BatchConfig.java:106-114 | the reader's query returns exactly the `PENDING` rows, each once; the model fixes their order as table order, since the query has no ORDER BY |
| `BankingConfig.PendingPositionsCount` | src/main/java/com/learn/springbatchexample/banking/BatchConfig.java:111-111 | the query returns as many rows as `countByStatus("PENDING")` counts |
| `BankingConfig.MarkAll` | src/main/java/com/learn/springbatchexample/banking/BatchConfig.java:127-136 | writing processed rows back changes exactly the listed rows, to their processed form; the table keeps its length |
| `BankingConfig.PageOf` | src/main/java/com/learn/springbatchexample/banking/BatchConfig.java:106-114 | a page is the slice of the current `PENDING` result starting at offset 5 × page: its k-th position is the (5 × page + k)-th `PENDING` position; it holds min(5, remaining) positions, so a page shorter than 5 reaches the end of the result |
| `BankingConfig.PagedProcessStep` | src/main/java/com/learn/springbatchexample/banking/BatchConfig.java:105-136 | the step as configured, page by page: every row that is not `PENDING` is untouched; a `PENDING` row is either untouched or turned into its processed form; the table keeps its length |
| `BankingConfig.PagedProcessStepMarksSmallTable` | src/main/java/com/learn/springbatchexample/banking/BatchConfig.java:105-136 | as configured, with at most 5 `PENDING` rows, the first page holds all of them and none is left `PENDING` |
| `BankingConfig.PagedProcessStepSkipsRows` | src/main/java/com/learn/springbatchexample/banking/BatchConfig.java:105-136 | as configured (paging reader over the status it updates), a table with 6 to 10 `PENDING` rows keeps count - 5 of them `PENDING` |
| `BankingConfig.ProcessStep` | src/main/java/com/learn/springbatchexample/banking/BatchConfig.java:127-136 | intended step: each row that was `PENDING` becomes its processed form, and every other row is untouched |
| `BankingConfig.ProcessStepLeavesNoPending` | src/main/java/com/learn/springbatchexample/banking/BatchConfig.java:126-136 | after the intended step no row is `PENDING` |
| `BankingConfig.PendingRows` | src/main/java/com/learn/springbatchexample/banking/BatchConfig.java:106-114 | intended one-time read of the query: row k is the table row at the k-th `PENDING` position, so each `PENDING` row appears exactly once, in table order; there are `countByStatus("PENDING")` of them |
| `BankingConfig.ProcessChunksWriteEveryPendingRow` | src/main/java/com/learn/springbatchexample/banking/BatchConfig.java:127-136 | intended step (one-time read): in chunks of at most 5, none of the `PENDING` rows is filtered; the writer gets each one, processed, in table order |
| `BankingConfig.NoTransactionTasklet` | src/main/java/com/learn/springbatchexample/banking/BatchConfig.java:138-147 | the tasklet leaves every row as it is and answers `FINISHED` on its first call |
| `BankingConfig.RunBankingJob` | src/main/java/com/learn/springbatchexample/banking/BatchConfig.java:158-176 | a launch starts at the import step, visits at most the 4 declared nodes and ends `COMPLETED` or `FAILED` |
| `BankingConfig.RunIntendedBankingJob` | src/main/java/com/learn/springbatchexample/banking/BatchConfig.java:158-176 | the same for the job as intended, whose process node runs the intended step |
| `BankingConfig.BankingJobRouting` | src/main/java/com/learn/springbatchexample/banking/BatchConfig.java:158-176 | the job completes; the import runs first, then the decider; `PROCESS` goes to the paging process step as configured, and `NO_PENDING` goes to the no-op tasklet, which leaves the imported table unchanged |
| `BankingConfig.IntendedBankingJobRouting` | src/main/java/com/learn/springbatchexample/banking/BatchConfig.java:158-176 | the same routing for the job as intended; its `PROCESS` branch leaves the intended step's table |
| `BankingConfig.BankingWalk` | src/main/java/com/learn/springbatchexample/banking/BatchConfig.java:167-175 | for any node behaviour in which the import and the branch steps exit `COMPLETED`, the graph visits import, decider, then the branch the token names, and ends there |
| `BankingConfig.BankingJobRunsExactlyOneBranch` | src/main/java/com/learn/springbatchexample/banking/BatchConfig.java:169-174 | every launch runs exactly one of the process step and the no-op step |
| `BankingConfig.BankingJobPendingLeft` | src/main/java/com/learn/springbatchexample/banking/BatchConfig.java:158-176 | as configured: when the import leaves at most 5 `PENDING` rows, the job leaves none; when it leaves 6 to 10, the job leaves 5 fewer, so at least one |
| `BankingConfig.IntendedBankingJobLeavesNoPending` | src/main/java/com/learn/springbatchexample/banking/BatchConfig.java:158-176 | intended job: whichever branch is taken, no `PENDING` row is left |
| `BankingConfig.LaunchBankingJob` | src/main/java/com/learn/springbatchexample/banking/BatchConfig.java:166-169 | with the listener registered: `jobStartTime` is stamped, the job as configured runs and completes, and `afterJob` reads back the final table |
| `TransactionDecider.CountByStatus` | src/main/java/com/learn/springbatchexample/banking/TransactionDecider.java:24-24 | the count of rows with exactly that status is at most the table size |
| `TransactionDecider.CountPositiveIffPresent` | src/main/java/com/learn/springbatchexample/banking/TransactionDecider.java:24-25 | the count is positive exactly when some row has the status |
| `TransactionDecider.Decide` | src/main/java/com/learn/springbatchexample/banking/TransactionDecider.java:22-30 | the token is `PROCESS` or `NO_PENDING`; it is `PROCESS` exactly when some row is `PENDING` |
| `TransactionDecider.CountByStatusUpdate` | src/main/java/com/learn/springbatchexample/banking/TransactionDecider.java:24-24 | replacing one row changes the count only by that row's old and new contribution |
| `TransactionDecider.DecideIgnoresOtherStatuses` | src/main/java/com/learn/springbatchexample/banking/TransactionDecider.java:23-29 | changing a row that is not `PENDING` into another row that is not `PENDING` does not change the decision |
| `JobCompletionListener.BeforeJob` | src/main/java/com/learn/springbatchexample/banking/JobCompletionNotificationListener.java:28-33 | `jobStartTime` is set to the supplied time; every other context key keeps its value; the status is not in the frame |
| `JobCompletionListener.AfterJob` | src/main/java/com/learn/springbatchexample/banking/JobCompletionNotificationListener.java:35-50 | returns early exactly when the status is running or unsuccessful; otherwise (`COMPLETED` or `STOPPED`) reads back all transactions; the "failed" else-branch is never taken |
| `LogBatchConfiguration.MapLogFieldSet` | src/main/java/com/learn/springbatchexample/logs/LogBatchConfiguration.java:35-46 | timestamp, level, component and message are copied verbatim |
| `LogBatchConfiguration.ReadLogEntries` | src/main/java/com/learn/springbatchexample/logs/LogBatchConfiguration.java:28-48 | the header line is skipped; every later line yields one entry, in order |
| `LogBatchConfiguration.ImportWritesEveryEntry` | src/main/java/com/learn/springbatchexample/logs/LogBatchConfiguration.java:59-68 | with no processor, the written entries equal the entries read, in order; none is filtered; every chunk reads and writes 1 to 5 entries |
| `LogBatchConfiguration.RunLogJob` | src/main/java/com/learn/springbatchexample/logs/LogBatchConfiguration.java:80-90 | a launch starts at the import step, visits at most the 2 declared nodes and ends `COMPLETED` or `FAILED` |
| `LogBatchConfiguration.LogJobIsLinear` | src/main/java/com/learn/springbatchexample/logs/LogBatchConfiguration.java:81-90 | the job runs the import, then the aggregation, with no branching, and completes; the summaries appended are those of the entries present after the import |
| `LogBatchConfiguration.LaunchLogJob` | src/main/java/com/learn/springbatchexample/logs/LogBatchConfiguration.java:70-78 | writing each chunk and then running the tasklet (the aggregation step's only work) leaves the store in the state the job run predicts |
| `LogAggregation.CountKey` | src/main/java/com/learn/springbatchexample/logs/LogAggregationTasklet.java:28-29 | a group's count is at most the number of entries, and positive exactly when some entry has that level and date |
| `LogAggregation.DistinctKeys` | src/main/java/com/learn/springbatchexample/logs/LogAggregationTasklet.java:28-29 | the (level, date) keys present among the entries, each listed once |
| `LogAggregation.GroupByLevelDate` | src/main/java/com/learn/springbatchexample/logs/LogAggregationTasklet.java:27-32 | each row's count is the number of entries with its (level, date); every count is at least 1; no two rows share a key; every entry's key has a row |
| `LogAggregation.GroupCountsSumToEntries` | src/main/java/com/learn/springbatchexample/logs/LogAggregationTasklet.java:28-29 | the group counts sum to the number of `log_entry` rows |
| `LogAggregation.IntValue` | src/main/java/com/learn/springbatchexample/logs/LogAggregationTasklet.java:43-43 | `intValue()` yields a 32-bit value congruent to the count modulo 2^32, equal to it when it fits |
| `LogAggregation.SummaryOf` | src/main/java/com/learn/springbatchexample/logs/LogAggregationTasklet.java:35-43 | a summary copies its row's level and date; its count is a 32-bit value, equal to the row's count when that fits |
| `LogAggregation.SummariesOf` | src/main/java/com/learn/springbatchexample/logs/LogAggregationTasklet.java:34-47 | exactly one summary per result row, in row order, built from that row |
| `LogAggregation.SummariesDescribeGroups` | src/main/java/com/learn/springbatchexample/logs/LogAggregationTasklet.java:34-47 | when the table holds fewer than 2^31 entries: each summary's level, date and count are copied from its row, every count is at least 1, no two summaries share a key, and the counts sum to the number of entries |
| `LogAggregation.LogStore.Execute` | src/main/java/com/learn/springbatchexample/logs/LogAggregationTasklet.java:24-50 | returns `FINISHED`; appends the run's summaries after the existing ones; log entries are outside the frame |
| `LogAggregation.LogStore.WriteEntries` | src/main/java/com/learn/springbatchexample/logs/LogBatchConfiguration.java:50-56 | the writer appends one chunk's entries to `log_entry` |
| `LogAggregation.ExecuteTwice` | src/main/java/com/learn/springbatchexample/logs/LogAggregationTasklet.java:46-46 | running the tasklet twice appends a second, identical set of summaries |
| `ChunkOriented.FilterMap` | src/main/java/com/learn/springbatchexample/banking/BatchConfig.java:97-101 | survivors + filtered items = items read |
| `ChunkOriented.ChunkStep` | src/main/java/com/learn/springbatchexample/banking/BatchConfig.java:97-101 | there are ceil(N / size) chunks; together they read all N items; each reads 1 to size items; every chunk except the last reads exactly size |
| `ChunkOriented.ChunkStepWritesSurvivorsInOrder` | src/main/java/com/learn/springbatchexample/banking/BatchConfig.java:97-101 | the concatenated batches are exactly the processed survivors, in source order |
| `ChunkOriented.ChunkStepAccounting` | src/main/java/com/learn/springbatchexample/banking/BatchConfig.java:97-101 | items read = items written + items filtered |
| `ChunkOriented.ChunkWritesAtMostItsReads` | src/main/java/com/learn/springbatchexample/banking/BatchConfig.java:97-101 | no chunk writes more items than it read |
| `ChunkOriented.NonFilteringWritesEveryItem` | src/main/java/com/learn/springbatchexample/logs/LogBatchConfiguration.java:63-67 | a processor that never filters passes every item on, transformed, in order |
| `Flow.Resolve` | src/main/java/com/learn/springbatchexample/banking/BatchConfig.java:170-174 | `next` goes to its target only when the node exits `COMPLETED`; `on(token)` goes to the registered node, and an unregistered token has no route; a node without a route ends the flow when it exits `COMPLETED`; every other exit code has no route and fails the job |
| `Flow.Walk` | src/main/java/com/learn/springbatchexample/banking/BatchConfig.java:167-175 | the run is `COMPLETED` or `FAILED`; it starts at the given node and visits only declared nodes; a completed run ends on a node without outgoing route |
| `Flow.NotCompletedFails` | src/main/java/com/learn/springbatchexample/banking/BatchConfig.java:167-175 | a step left by `next`, or ending the flow, that does not exit `COMPLETED` fails the job there |
| `Batch.SkipHeader` | src/main/java/com/learn/springbatchexample/banking/BatchConfig.java:45-45 | the first line is dropped and every later line is kept, in order |

## Left out

- CSV tokenising and value parsing are left out: `readBigDecimal`, `readDate` with the system time zone, and `LocalDateTime.parse`. Lines reach the model already split and parsed.
- BankingConfig.ValidateTransaction: compares the exact decimal amount with zero. The source compares `doubleValue()`, so a negative amount so small that it rounds to `-0.0` passes the source's filter, while the model drops it. Floating point is not modelled.
- Generated identities are left out: a row is identified by its position in its table, so "id unchanged" is "same position".
- Entities are values. The status processor updates the detached entity object in place, and the writer merges it back. The model writes the updated value back at the row's position; entity object identity and aliasing are not modelled.
- The framework's transactions, chunk commit and rollback, restart, job parameters and the job repository are left out. No step fails in the model, so a run is `FAILED` only on a routing error.
- The reader's query has no ORDER BY, so its row order is unspecified. The model returns `PENDING` rows in table order, and it assumes the same order for every page query. The same holds for `afterJob`'s read-back query (`SELECT t FROM BankingTransaction t`): `AfterJob` returns the rows in table order.
- Flow.Resolve: every exit code other than `COMPLETED` that no `on(...)` names fails the job. The framework's other end states (stop, explicit end with a status) are not modelled, because neither job declares one.
- BankingConfig.BankingJobPendingLeft: gives the exact number of rows left `PENDING` only for imports that leave at most 10. Larger tables also skip rows, but that is not proved.
- Flow.Walk: walks at most as many nodes as the graph declares, and reports `FAILED` past that. Both job graphs are acyclic and finish within this bound (`BankingJobRouting`, `LogJobIsLinear`).
- The decider's `jobExecution` and `stepExecution` arguments are not parameters, because `decide` never consults them. Its read-only nature holds by construction: it is a function.
- All logging and console output is left out. That includes the per-transaction log lines of the verification read: `AfterJob` returns the rows read instead.
- The native SQL query returns its groups in an unspecified order. The model lists groups in the order of each group's first entry. The proved properties hold for any fixed order. `ExecuteTwice` and `LogJobIsLinear` also assume that every run of the query returns the groups in the same order.
- `System.currentTimeMillis()` is a parameter of `BeforeJob`.
- `BatchJobController.java`, `LogController.java` and `SpringBatchExampleApplication.java` only launch jobs over HTTP or boot the application, so they are not part of this model.
- `LogFileMonitor.java` and `LogFileGenerator.java` are scheduled file I/O, so they are not part of this model.
- The entity and repository classes appear only as the shapes in `Records` and as `CountByStatus`.

## Findings

| source | as written | input that shows it | evidently intended | confidence | as-written member | corrected member |
|---|---|---|---|---|---|---|
| src/main/java/com/learn/springbatchexample/banking/BatchConfig.java:105-136 | `processTransactionStep` reads through a paging reader (page size 5) whose query selects `status = 'PENDING'`. The step sets that same status to `PROCESSED` and commits each chunk before the next page is queried at offset 5 × page, so each later page skips past rows that are still `PENDING` | a table with 6 `PENDING` rows: page 0 marks 5 of them; page 1 is queried at offset 5 among the one row still `PENDING`, comes back empty, and the step ends with that row `PENDING` | every row that is `PENDING` when the step starts ends `PROCESSED` | medium, not executed (rests on the paging reader re-running its query per page) | `BankingConfig.PagedProcessStepSkipsRows` (about `BankingConfig.PagedProcessStep`) | `BankingConfig.ProcessStep`, with `BankingConfig.ProcessStepLeavesNoPending`; the job as intended is `BankingConfig.RunIntendedBankingJob`, with `BankingConfig.IntendedBankingJobLeavesNoPending` |
