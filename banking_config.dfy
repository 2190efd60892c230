/**
 * The banking job: import CSV transactions (negative amounts filtered out),
 * then either run the step that marks PENDING rows PROCESSED, page by page,
 * or report that there is none.
 */
module BankingConfig {
  import opened Batch
  import opened Records
  import opened ChunkOriented
  import opened Flow
  import opened TransactionDecider
  import opened JobCompletionListener

  // ---------------------------------------------------------------------------
  // Step 1: importTransactionStep

  /** One CSV line, its three named fields already parsed. */
  datatype TransactionFieldSet = TransactionFieldSet(accountNumber: string, amount: real, transactionDate: LocalDateTime)

  /** The reader's field-set mapper: a fresh transaction, tagged PENDING. */
  function MapTransactionFieldSet(fields: TransactionFieldSet): (t: BankingTransaction)
    ensures t.status == PENDING
    ensures t.accountNumber == fields.accountNumber
    ensures t.amount == fields.amount
    ensures t.transactionDate == fields.transactionDate
  {
    BankingTransaction(fields.accountNumber, fields.amount, fields.transactionDate, PENDING)
  }

  /** What the CSV reader yields: one transaction per line after the header. */
  function ReadTransactions(lines: seq<TransactionFieldSet>): (items: seq<BankingTransaction>)
    ensures |items| == |SkipHeader(lines)|
    ensures forall i :: 0 <= i < |items| ==> items[i] == MapTransactionFieldSet(lines[i + 1])
  {
    var rows := SkipHeader(lines);
    seq(|rows|, i requires 0 <= i < |rows| => MapTransactionFieldSet(rows[i]))
  }

  /** The validation processor: a negative amount filters the transaction out. */
  function ValidateTransaction(t: BankingTransaction): (r: Option<BankingTransaction>)
    ensures r.None? <==> t.amount < 0.0
    ensures r.Some? ==> r.value == t
  {
    if t.amount < 0.0 then None else Some(t)
  }

  /** The chunks of the import step, five lines at a time. */
  function ImportChunks(lines: seq<TransactionFieldSet>): seq<Chunk<BankingTransaction>>
  {
    ChunkStep(ReadTransactions(lines), ValidateTransaction, CHUNK_SIZE)
  }

  /** The table after the import: the writer appends every batch it receives. */
  function ImportStep(table: seq<BankingTransaction>, lines: seq<TransactionFieldSet>): (r: seq<BankingTransaction>)
    ensures r == table + NonNegative(ReadTransactions(lines))
  {
    ImportWritesNonNegativeRows(lines);
    table + Written(ImportChunks(lines))
  }

  /** Reference definition: the transactions whose amount is not negative, in order. */
  function NonNegative(ts: seq<BankingTransaction>): seq<BankingTransaction>
  {
    if |ts| == 0 then []
    else (if ts[0].amount >= 0.0 then [ts[0]] else []) + NonNegative(ts[1..])
  }

  lemma {:induction false} ValidationKeepsNonNegative(ts: seq<BankingTransaction>)
    ensures FilterMap(ts, ValidateTransaction) == NonNegative(ts)
  {
    if |ts| > 0 {
      ValidationKeepsNonNegative(ts[1..]);
    }
  }

  lemma {:induction false} NonNegativeIsSubsequence(ts: seq<BankingTransaction>)
    ensures forall t :: t in NonNegative(ts) ==> t in ts && t.amount >= 0.0
  {
    if |ts| > 0 {
      NonNegativeIsSubsequence(ts[1..]);
    }
  }

  /**
   * The import writes exactly the non-negative transactions read, in input
   * order, every one PENDING; each chunk reads at most five lines.
   */
  lemma ImportWritesNonNegativeRows(lines: seq<TransactionFieldSet>)
    ensures Written(ImportChunks(lines)) == NonNegative(ReadTransactions(lines))
    ensures forall t :: t in Written(ImportChunks(lines)) ==> t.status == PENDING && t.amount >= 0.0
    ensures forall c :: c in ImportChunks(lines) ==> 1 <= c.readCount <= CHUNK_SIZE
  {
    var items := ReadTransactions(lines);
    ChunkStepWritesSurvivorsInOrder(items, ValidateTransaction, CHUNK_SIZE);
    ValidationKeepsNonNegative(items);
    NonNegativeIsSubsequence(items);
  }

  /** Lines read after the header = transactions written + transactions filtered. */
  lemma ImportAccounting(lines: seq<TransactionFieldSet>)
    ensures TotalRead(ImportChunks(lines)) == |SkipHeader(lines)|
    ensures TotalRead(ImportChunks(lines))
            == |Written(ImportChunks(lines))| + FilteredCount(ReadTransactions(lines), ValidateTransaction)
  {
    ChunkStepAccounting(ReadTransactions(lines), ValidateTransaction, CHUNK_SIZE);
  }

  /** Imported rows are PENDING, so an import that writes anything makes the decider answer PROCESS. */
  lemma ImportedRowsLeadToProcess(table: seq<BankingTransaction>, lines: seq<TransactionFieldSet>)
    requires |Written(ImportChunks(lines))| > 0
    ensures Decide(ImportStep(table, lines)) == PROCESS
  {
    var written := Written(ImportChunks(lines));
    ImportWritesNonNegativeRows(lines);
    assert written[0] in written;
    assert ImportStep(table, lines)[|table|] == written[0];
    CountPositiveIffPresent(ImportStep(table, lines), PENDING);
  }

  // ---------------------------------------------------------------------------
  // Step 2: processTransactionStep

  /** The query `status = 'PENDING'` of the step's reader. */
  predicate IsPending(t: BankingTransaction) {
    t.status == PENDING
  }

  /** The status processor: never filters, sets PROCESSED and nothing else. */
  function MarkProcessed(t: BankingTransaction): (r: Option<BankingTransaction>)
    ensures r.Some? && r.value.status == PROCESSED
    ensures r.value.accountNumber == t.accountNumber
    ensures r.value.amount == t.amount
    ensures r.value.transactionDate == t.transactionDate
  {
    Some(t.(status := PROCESSED))
  }

  /** Positions of the rows the reader's query returns, in table order. */
  function PendingPositions(table: seq<BankingTransaction>): (ps: seq<nat>)
    ensures |ps| <= |table|
    ensures forall k :: 0 <= k < |ps| ==> ps[k] < |table| && IsPending(table[ps[k]])
    ensures forall k, l :: 0 <= k < l < |ps| ==> ps[k] < ps[l]
    ensures forall i :: 0 <= i < |table| && IsPending(table[i]) ==> i in ps
  {
    if |table| == 0 then []
    else
      var last := |table| - 1;
      var prefix := table[..last];
      assert forall i :: 0 <= i < last ==> prefix[i] == table[i];
      var rest := PendingPositions(prefix);
      var ps := rest + (if IsPending(table[last]) then [last] else []);
      assert forall k :: 0 <= k < |rest| ==> ps[k] == rest[k] && rest[k] < last;
      assert forall i :: 0 <= i < last && IsPending(table[i]) ==> i in rest;
      ps
  }

  /** The query returns as many rows as the repository counts. */
  lemma {:induction false} PendingPositionsCount(table: seq<BankingTransaction>)
    ensures |PendingPositions(table)| == CountByStatus(table, PENDING)
  {
    if |table| > 0 {
      PendingPositionsCount(table[..|table| - 1]);
    }
  }

  /** The writer merging each processed row back at its own position. */
  function MarkAll(table: seq<BankingTransaction>, ps: seq<nat>): (r: seq<BankingTransaction>)
    requires forall k :: 0 <= k < |ps| ==> ps[k] < |table|
    ensures |r| == |table|
    ensures forall i :: 0 <= i < |table| ==>
              r[i] == if i in ps then MarkProcessed(table[i]).value else table[i]
    decreases |ps|
  {
    if |ps| == 0 then table
    else MarkAll(table[ps[0] := MarkProcessed(table[ps[0]]).value], ps[1..])
  }

  /** Marking distinct PENDING rows lowers the PENDING count by their number. */
  lemma {:induction false} MarkAllCount(table: seq<BankingTransaction>, ps: seq<nat>)
    requires forall k :: 0 <= k < |ps| ==> ps[k] < |table| && IsPending(table[ps[k]])
    requires forall k, l :: 0 <= k < l < |ps| ==> ps[k] != ps[l]
    ensures CountByStatus(MarkAll(table, ps), PENDING) == CountByStatus(table, PENDING) - |ps|
    decreases |ps|
  {
    if |ps| > 0 {
      var next := table[ps[0] := MarkProcessed(table[ps[0]]).value];
      CountByStatusUpdate(table, ps[0], MarkProcessed(table[ps[0]]).value, PENDING);
      assert forall k :: 0 <= k < |ps| - 1 ==> ps[1..][k] == ps[k + 1] && next[ps[k + 1]] == table[ps[k + 1]];
      MarkAllCount(next, ps[1..]);
    }
  }

  /**
   * The page the step's paging reader fetches: the query is run again for
   * every page, at offset `5 * page`, over the table as it stands then.
   */
  function PageOf(table: seq<BankingTransaction>, page: nat): (ps: seq<nat>)
    ensures |ps| <= CHUNK_SIZE
    ensures forall k :: 0 <= k < |ps| ==> ps[k] < |table| && IsPending(table[ps[k]])
    ensures forall k, l :: 0 <= k < l < |ps| ==> ps[k] < ps[l]
    ensures forall k :: 0 <= k < |ps| ==>
              CHUNK_SIZE * page + k < |PendingPositions(table)| && ps[k] == PendingPositions(table)[CHUNK_SIZE * page + k]
    ensures |ps| < CHUNK_SIZE ==> CHUNK_SIZE * page + |ps| >= |PendingPositions(table)|
    ensures |ps| == CHUNK_SIZE ==> CHUNK_SIZE * page + CHUNK_SIZE <= |PendingPositions(table)| <= |table|
  {
    var pending := PendingPositions(table);
    var lo := if CHUNK_SIZE * page < |pending| then CHUNK_SIZE * page else |pending|;
    var hi := if CHUNK_SIZE * page + CHUNK_SIZE < |pending| then CHUNK_SIZE * page + CHUNK_SIZE else |pending|;
    pending[lo..hi]
  }

  /**
   * processTransactionStep as configured: one chunk per page (chunk size and
   * page size are both five); each chunk's rows are marked and written before
   * the next page is queried; a page shorter than five ends the step.
   */
  function PagedProcessStep(table: seq<BankingTransaction>, page: nat): (r: seq<BankingTransaction>)
    ensures |r| == |table|
    ensures forall i :: 0 <= i < |table| && !IsPending(table[i]) ==> r[i] == table[i]
    ensures forall i :: 0 <= i < |table| && IsPending(table[i]) ==>
              r[i] == table[i] || r[i] == MarkProcessed(table[i]).value
    decreases |table| - CHUNK_SIZE * page
  {
    var ps := PageOf(table, page);
    var next := MarkAll(table, ps);
    if |ps| < CHUNK_SIZE then next else PagedProcessStep(next, page + 1)
  }

  /**
   * As configured, the step skips rows: with six to ten PENDING rows, the
   * second page is queried at offset five among the rows still PENDING, which
   * are now fewer than five, so all of them stay PENDING.
   */
  lemma PagedProcessStepSkipsRows(table: seq<BankingTransaction>)
    requires CHUNK_SIZE < CountByStatus(table, PENDING) <= 2 * CHUNK_SIZE
    ensures CountByStatus(PagedProcessStep(table, 0), PENDING) == CountByStatus(table, PENDING) - CHUNK_SIZE
    ensures CountByStatus(PagedProcessStep(table, 0), PENDING) > 0
  {
    PendingPositionsCount(table);
    var first := PageOf(table, 0);
    assert |first| == CHUNK_SIZE;
    var next := MarkAll(table, first);
    assert PagedProcessStep(table, 0) == PagedProcessStep(next, 1);
    MarkAllCount(table, first);
    SecondPageEmpty(next);
  }

  /** With at most five PENDING rows, the first page holds them all, and the step marks every one. */
  lemma PagedProcessStepMarksSmallTable(table: seq<BankingTransaction>)
    requires CountByStatus(table, PENDING) <= CHUNK_SIZE
    ensures CountByStatus(PagedProcessStep(table, 0), PENDING) == 0
  {
    PendingPositionsCount(table);
    var first := PageOf(table, 0);
    assert first == PendingPositions(table);
    var next := MarkAll(table, first);
    MarkAllCount(table, first);
    if |first| == CHUNK_SIZE {
      SecondPageEmpty(next);
    }
  }

  /** With at most five rows still PENDING, the page at offset five is empty and the step stops. */
  lemma SecondPageEmpty(table: seq<BankingTransaction>)
    requires CountByStatus(table, PENDING) <= CHUNK_SIZE
    ensures PagedProcessStep(table, 1) == table
  {
    PendingPositionsCount(table);
    assert PageOf(table, 1) == [];
  }

  /**
   * processTransactionStep as intended: every row PENDING when the step starts
   * becomes PROCESSED, every other row is left as it was.
   */
  function ProcessStep(table: seq<BankingTransaction>): (r: seq<BankingTransaction>)
    ensures |r| == |table|
    ensures forall i :: 0 <= i < |table| ==>
              r[i] == if IsPending(table[i]) then MarkProcessed(table[i]).value else table[i]
  {
    MarkAll(table, PendingPositions(table))
  }

  /** After the intended step no row is PENDING. */
  lemma ProcessStepLeavesNoPending(table: seq<BankingTransaction>)
    ensures CountByStatus(ProcessStep(table), PENDING) == 0
  {
    var r := ProcessStep(table);
    forall i | 0 <= i < |r|
      ensures r[i].status != PENDING
    {
    }
    CountPositiveIffPresent(r, PENDING);
  }

  /** The rows an intended, one-time read of the query hands over, in table order. */
  function PendingRows(table: seq<BankingTransaction>): (rows: seq<BankingTransaction>)
    ensures |rows| == |PendingPositions(table)| == CountByStatus(table, PENDING)
    ensures forall k :: 0 <= k < |rows| ==> rows[k] == table[PendingPositions(table)[k]]
    ensures forall k :: 0 <= k < |rows| ==> IsPending(rows[k]) && rows[k] in table
    ensures forall i :: 0 <= i < |table| && IsPending(table[i]) ==> table[i] in rows
  {
    var ps := PendingPositions(table);
    PendingPositionsCount(table);
    var rows := seq(|ps|, k requires 0 <= k < |ps| => table[ps[k]]);
    assert forall i :: 0 <= i < |table| && IsPending(table[i]) ==> table[i] in rows by {
      forall i | 0 <= i < |table| && IsPending(table[i])
        ensures table[i] in rows
      {
        var k :| 0 <= k < |ps| && ps[k] == i;
        assert rows[k] == table[i];
      }
    }
    rows
  }

  /**
   * The intended step, in chunks of at most five: the status processor
   * filters none of the PENDING rows, so the writer receives each of them,
   * marked, in table order. This describes the writer's input only; the
   * table it leaves is `ProcessStep`.
   */
  lemma ProcessChunksWriteEveryPendingRow(table: seq<BankingTransaction>)
    ensures var rows := PendingRows(table);
            && Written(ChunkStep(rows, MarkProcessed, CHUNK_SIZE))
               == seq(|rows|, k requires 0 <= k < |rows| => MarkProcessed(rows[k]).value)
            && FilteredCount(rows, MarkProcessed) == 0
            && forall c :: c in ChunkStep(rows, MarkProcessed, CHUNK_SIZE) ==> c.readCount <= CHUNK_SIZE
  {
    var rows := PendingRows(table);
    ChunkStepWritesSurvivorsInOrder(rows, MarkProcessed, CHUNK_SIZE);
    NonFilteringWritesEveryItem(rows, MarkProcessed);
  }

  // ---------------------------------------------------------------------------
  // noTransactionStep and the job

  /** The tasklet of noTransactionStep: touches no row and is finished on its first call. */
  function NoTransactionTasklet(table: seq<BankingTransaction>): (r: (seq<BankingTransaction>, RepeatStatus))
    ensures r.0 == table
    ensures r.1 == FINISHED
  {
    (table, FINISHED)
  }

  datatype BankingNode = ImportTransactionStep | Decider | ProcessTransactionStep | NoTransactionStep

  /** start(import).next(decider), decider on PROCESS to the process step, on NO_PENDING to the no-op step. */
  const BankingJobGraph: Graph<BankingNode> :=
    Graph(ImportTransactionStep, map[
      ImportTransactionStep := Next(Decider),
      Decider := On(map[PROCESS := ProcessTransactionStep, NO_PENDING := NoTransactionStep]),
      ProcessTransactionStep := End,
      NoTransactionStep := End])

  /** What visiting a node does to the table, and the token it answers. */
  function ExecuteBankingNode(lines: seq<TransactionFieldSet>, node: BankingNode, table: seq<BankingTransaction>)
    : (seq<BankingTransaction>, string)
  {
    match node
    case ImportTransactionStep => (ImportStep(table, lines), EXIT_COMPLETED)
    case Decider => (table, Decide(table))
    case ProcessTransactionStep => (PagedProcessStep(table, 0), EXIT_COMPLETED)
    case NoTransactionStep =>
      var (after, repeat) := NoTransactionTasklet(table);
      (after, if repeat == FINISHED then EXIT_COMPLETED else "")
  }

  /** One launch of bankingTransactionJob over the table it finds. */
  function RunBankingJob(table: seq<BankingTransaction>, lines: seq<TransactionFieldSet>)
    : (r: FlowRun<BankingNode, seq<BankingTransaction>>)
    ensures r.status == COMPLETED || r.status == FAILED
    ensures 0 < |r.trace| <= 4 && r.trace[0] == ImportTransactionStep
  {
    BankingJobGraphSize();
    Run(BankingJobGraph, (n, t) => ExecuteBankingNode(lines, n, t), table)
  }

  /** The nodes of the job as intended: the process step marks every row PENDING when it starts. */
  function ExecuteIntendedBankingNode(lines: seq<TransactionFieldSet>, node: BankingNode, table: seq<BankingTransaction>)
    : (seq<BankingTransaction>, string)
  {
    if node == ProcessTransactionStep then (ProcessStep(table), EXIT_COMPLETED)
    else ExecuteBankingNode(lines, node, table)
  }

  /** One launch of the job as intended. */
  function RunIntendedBankingJob(table: seq<BankingTransaction>, lines: seq<TransactionFieldSet>)
    : (r: FlowRun<BankingNode, seq<BankingTransaction>>)
    ensures r.status == COMPLETED || r.status == FAILED
    ensures 0 < |r.trace| <= 4 && r.trace[0] == ImportTransactionStep
  {
    BankingJobGraphSize();
    Run(BankingJobGraph, (n, t) => ExecuteIntendedBankingNode(lines, n, t), table)
  }

  /**
   * The import runs first, then the decider; PROCESS leads to the process step
   * and NO_PENDING to the no-op step, which leaves the table as imported.
   */
  lemma BankingJobRouting(table: seq<BankingTransaction>, lines: seq<TransactionFieldSet>)
    ensures var run := RunBankingJob(table, lines);
            var imported := ImportStep(table, lines);
            && run.status == COMPLETED
            && (Decide(imported) == PROCESS ==>
                  run.trace == [ImportTransactionStep, Decider, ProcessTransactionStep]
                  && run.state == PagedProcessStep(imported, 0))
            && (Decide(imported) == NO_PENDING ==>
                  run.trace == [ImportTransactionStep, Decider, NoTransactionStep]
                  && run.state == imported)
  {
    var exec := (n, t) => ExecuteBankingNode(lines, n, t);
    var imported := ImportStep(table, lines);
    ExecuteBankingNodeEffects(lines, table);
    ExecuteBankingNodeEffects(lines, imported);
    BankingWalk(exec, table, imported, Decide(imported), PagedProcessStep(imported, 0));
  }

  /** What each node of the job as configured does to a given table. */
  lemma ExecuteBankingNodeEffects(lines: seq<TransactionFieldSet>, table: seq<BankingTransaction>)
    ensures ExecuteBankingNode(lines, ImportTransactionStep, table) == (ImportStep(table, lines), EXIT_COMPLETED)
    ensures ExecuteBankingNode(lines, Decider, table) == (table, Decide(table))
    ensures ExecuteBankingNode(lines, ProcessTransactionStep, table) == (PagedProcessStep(table, 0), EXIT_COMPLETED)
    ensures ExecuteBankingNode(lines, NoTransactionStep, table) == (table, EXIT_COMPLETED)
  {
  }

  /** The same routing for the job as intended, whose PROCESS branch ends with the intended step. */
  lemma IntendedBankingJobRouting(table: seq<BankingTransaction>, lines: seq<TransactionFieldSet>)
    ensures var run := RunIntendedBankingJob(table, lines);
            var imported := ImportStep(table, lines);
            && run.status == COMPLETED
            && (Decide(imported) == PROCESS ==>
                  run.trace == [ImportTransactionStep, Decider, ProcessTransactionStep]
                  && run.state == ProcessStep(imported))
            && (Decide(imported) == NO_PENDING ==>
                  run.trace == [ImportTransactionStep, Decider, NoTransactionStep]
                  && run.state == imported)
  {
    var exec := (n, t) => ExecuteIntendedBankingNode(lines, n, t);
    var imported := ImportStep(table, lines);
    var token := Decide(imported);
    assert exec(ImportTransactionStep, table) == (imported, EXIT_COMPLETED);
    assert exec(Decider, imported) == (imported, token);
    assert exec(ProcessTransactionStep, imported) == (ProcessStep(imported), EXIT_COMPLETED);
    assert exec(NoTransactionStep, imported) == (imported, EXIT_COMPLETED);
    BankingWalk(exec, table, imported, token, ProcessStep(imported));
  }

  /** The walk over the banking graph, for any node behaviour with the import, decider and branch effects given. */
  lemma BankingWalk(exec: (BankingNode, seq<BankingTransaction>) -> (seq<BankingTransaction>, string),
                    table: seq<BankingTransaction>, imported: seq<BankingTransaction>, token: string,
                    processed: seq<BankingTransaction>)
    requires token == PROCESS || token == NO_PENDING
    requires exec(ImportTransactionStep, table) == (imported, EXIT_COMPLETED)
    requires exec(Decider, imported) == (imported, token)
    requires exec(ProcessTransactionStep, imported) == (processed, EXIT_COMPLETED)
    requires exec(NoTransactionStep, imported) == (imported, EXIT_COMPLETED)
    ensures Run(BankingJobGraph, exec, table)
            == if token == PROCESS
               then FlowRun([ImportTransactionStep, Decider, ProcessTransactionStep], processed, COMPLETED)
               else FlowRun([ImportTransactionStep, Decider, NoTransactionStep], imported, COMPLETED)
  {
    BankingJobGraphSize();
    ImportLeadsToDecider(exec, table, imported);
    var branch := DeciderLeadsToBranch(exec, imported, token);
    var after := if branch == ProcessTransactionStep then processed else imported;
    BranchEnds(exec, branch, imported, after);
  }

  lemma ImportLeadsToDecider(exec: (BankingNode, seq<BankingTransaction>) -> (seq<BankingTransaction>, string),
                             table: seq<BankingTransaction>, imported: seq<BankingTransaction>)
    requires exec(ImportTransactionStep, table) == (imported, EXIT_COMPLETED)
    ensures var rest := Walk(BankingJobGraph, exec, Decider, imported, 3);
            Walk(BankingJobGraph, exec, ImportTransactionStep, table, 4)
            == FlowRun([ImportTransactionStep] + rest.trace, rest.state, rest.status)
  {
  }

  lemma DeciderLeadsToBranch(exec: (BankingNode, seq<BankingTransaction>) -> (seq<BankingTransaction>, string),
                             table: seq<BankingTransaction>, token: string)
    returns (branch: BankingNode)
    requires token == PROCESS || token == NO_PENDING
    requires exec(Decider, table) == (table, token)
    ensures branch == if token == PROCESS then ProcessTransactionStep else NoTransactionStep
    ensures var rest := Walk(BankingJobGraph, exec, branch, table, 2);
            Walk(BankingJobGraph, exec, Decider, table, 3)
            == FlowRun([Decider] + rest.trace, rest.state, rest.status)
  {
    branch := if token == PROCESS then ProcessTransactionStep else NoTransactionStep;
    assert Resolve(BankingJobGraph.routes[Decider], token) == Goto(branch);
  }

  lemma BankingJobGraphSize()
    ensures |BankingJobGraph.routes| == 4
  {
    var m := BankingJobGraph.routes;
    assert m.Keys == {ImportTransactionStep, Decider, ProcessTransactionStep, NoTransactionStep};
  }

  /** Either branch node runs once and ends the flow. */
  lemma BranchEnds(exec: (BankingNode, seq<BankingTransaction>) -> (seq<BankingTransaction>, string),
                   branch: BankingNode, table: seq<BankingTransaction>, after: seq<BankingTransaction>)
    requires branch == ProcessTransactionStep || branch == NoTransactionStep
    requires exec(branch, table) == (after, EXIT_COMPLETED)
    ensures Walk(BankingJobGraph, exec, branch, table, 2) == FlowRun([branch], after, COMPLETED)
  {
  }

  /** Exactly one of the two branches runs per launch. */
  lemma BankingJobRunsExactlyOneBranch(table: seq<BankingTransaction>, lines: seq<TransactionFieldSet>)
    ensures var trace := RunBankingJob(table, lines).trace;
            && |trace| == 3 && trace[0] == ImportTransactionStep && trace[1] == Decider
            && (ProcessTransactionStep in trace <==> NoTransactionStep !in trace)
  {
    BankingJobRouting(table, lines);
  }

  /**
   * The PENDING rows the job leaves: none when the import leaves at most five,
   * but five fewer than the import left when it leaves six to ten.
   */
  lemma BankingJobPendingLeft(table: seq<BankingTransaction>, lines: seq<TransactionFieldSet>)
    ensures var pending := CountByStatus(ImportStep(table, lines), PENDING);
            var left := CountByStatus(RunBankingJob(table, lines).state, PENDING);
            && (pending <= CHUNK_SIZE ==> left == 0)
            && (CHUNK_SIZE < pending <= 2 * CHUNK_SIZE ==> left == pending - CHUNK_SIZE > 0)
  {
    BankingJobRouting(table, lines);
    var imported := ImportStep(table, lines);
    var pending := CountByStatus(imported, PENDING);
    if Decide(imported) == PROCESS {
      if pending <= CHUNK_SIZE {
        PagedProcessStepMarksSmallTable(imported);
      } else if pending <= 2 * CHUNK_SIZE {
        PagedProcessStepSkipsRows(imported);
      }
    } else {
      CountPositiveIffPresent(imported, PENDING);
    }
  }

  /** Whichever branch the decider takes, the job as intended leaves no PENDING row behind. */
  lemma IntendedBankingJobLeavesNoPending(table: seq<BankingTransaction>, lines: seq<TransactionFieldSet>)
    ensures CountByStatus(RunIntendedBankingJob(table, lines).state, PENDING) == 0
  {
    IntendedBankingJobRouting(table, lines);
    var imported := ImportStep(table, lines);
    if Decide(imported) == PROCESS {
      ProcessStepLeavesNoPending(imported);
    } else {
      CountPositiveIffPresent(imported, PENDING);
    }
  }

  /** A launch with the completion listener registered. */
  method LaunchBankingJob(execution: JobExecution, table: seq<BankingTransaction>, lines: seq<TransactionFieldSet>,
                          nowMillis: int)
    returns (run: FlowRun<BankingNode, seq<BankingTransaction>>, report: AfterJobReport)
    modifies execution
    ensures execution.context == old(execution.context)[JOB_START_TIME := nowMillis]
    ensures run == RunBankingJob(table, lines)
    ensures execution.status == run.status == COMPLETED
    ensures report == VerifiedResults(run.state)
  {
    execution.status := STARTED;
    BeforeJob(execution, nowMillis);
    run := RunBankingJob(table, lines);
    BankingJobRouting(table, lines);
    execution.status := run.status;
    report := AfterJob(execution.status, run.state);
  }
}
