/** The log job: import log lines unchanged, then aggregate them. */
module LogBatchConfiguration {
  import opened Batch
  import opened Records
  import opened ChunkOriented
  import opened Flow
  import opened LogAggregation

  /** One CSV line, its four named fields already parsed. */
  datatype LogFieldSet = LogFieldSet(timestamp: LocalDateTime, level: string, component: string, message: string)

  /** The reader's field-set mapper: every field copied verbatim into a fresh entry. */
  function MapLogFieldSet(fields: LogFieldSet): (e: LogEntry)
    ensures e.timestamp == fields.timestamp
    ensures e.level == fields.level
    ensures e.component == fields.component
    ensures e.message == fields.message
  {
    LogEntry(fields.timestamp, fields.level, fields.component, fields.message)
  }

  /** What the CSV reader yields: the header line is skipped, every later line yields one entry. */
  function ReadLogEntries(lines: seq<LogFieldSet>): (entries: seq<LogEntry>)
    ensures |lines| == 0 ==> entries == []
    ensures |lines| > 0 ==> |entries| == |lines| - 1
    ensures forall i :: 0 <= i < |entries| ==> entries[i] == MapLogFieldSet(lines[i + 1])
  {
    var rows := SkipHeader(lines);
    seq(|rows|, i requires 0 <= i < |rows| => MapLogFieldSet(rows[i]))
  }

  /** importLogEntriesStep declares no processor: every item read is passed on as it is. */
  function NoProcessor(e: LogEntry): Option<LogEntry> {
    Some(e)
  }

  function ImportLogChunks(lines: seq<LogFieldSet>): seq<Chunk<LogEntry>>
  {
    ChunkStep(ReadLogEntries(lines), NoProcessor, CHUNK_SIZE)
  }

  /** The import writes every entry read, in order, at most five per chunk, filtering none. */
  lemma ImportWritesEveryEntry(lines: seq<LogFieldSet>)
    ensures Written(ImportLogChunks(lines)) == ReadLogEntries(lines)
    ensures FilteredCount(ReadLogEntries(lines), NoProcessor) == 0
    ensures forall c :: c in ImportLogChunks(lines) ==> 1 <= c.readCount <= CHUNK_SIZE && |c.written| == c.readCount
  {
    var entries := ReadLogEntries(lines);
    ChunkStepWritesSurvivorsInOrder(entries, NoProcessor, CHUNK_SIZE);
    NonFilteringWritesEveryItem(entries, NoProcessor);
    NonFilteringChunksWrite(entries);
  }

  lemma {:induction false} NonFilteringChunksWrite(entries: seq<LogEntry>)
    ensures forall c :: c in ChunkStep(entries, NoProcessor, CHUNK_SIZE) ==> |c.written| == c.readCount
    decreases |entries|
  {
    if |entries| > 0 {
      var n := if |entries| < CHUNK_SIZE then |entries| else CHUNK_SIZE;
      NonFilteringWritesEveryItem(entries[..n], NoProcessor);
      NonFilteringChunksWrite(entries[n..]);
    }
  }

  // ---------------------------------------------------------------------------
  // The job

  /** Both tables of the log job. */
  datatype LogTables = LogTables(entries: seq<LogEntry>, summaries: seq<LogSummary>)

  datatype LogNode = ImportLogEntriesStep | AggregateLogDataStep

  /** start(importLogEntriesStep).next(aggregateLogDataStep): no branching. */
  const LogJobGraph: Graph<LogNode> :=
    Graph(ImportLogEntriesStep, map[
      ImportLogEntriesStep := Next(AggregateLogDataStep),
      AggregateLogDataStep := End])

  /** What visiting a node does: the import appends entries; the aggregation step's only work is the tasklet. */
  function ExecuteLogNode(lines: seq<LogFieldSet>, node: LogNode, db: LogTables): (LogTables, string)
  {
    match node
    case ImportLogEntriesStep =>
      (db.(entries := db.entries + Written(ImportLogChunks(lines))), EXIT_COMPLETED)
    case AggregateLogDataStep =>
      (db.(summaries := db.summaries + SummariesOf(GroupByLevelDate(db.entries))), EXIT_COMPLETED)
  }

  /** One launch of logAggregationJob over the tables it finds. */
  function RunLogJob(db: LogTables, lines: seq<LogFieldSet>): (r: FlowRun<LogNode, LogTables>)
    ensures r.status == COMPLETED || r.status == FAILED
    ensures 0 < |r.trace| <= 2 && r.trace[0] == ImportLogEntriesStep
  {
    LogJobGraphSize();
    Run(LogJobGraph, (n, d) => ExecuteLogNode(lines, n, d), db)
  }

  lemma LogJobGraphSize()
    ensures |LogJobGraph.routes| == 2
  {
    assert LogJobGraph.routes.Keys == {ImportLogEntriesStep, AggregateLogDataStep};
  }

  /**
   * The import runs, then the aggregation, then the job completes; the
   * summaries are those of the entries the table holds after the import.
   */
  lemma LogJobIsLinear(db: LogTables, lines: seq<LogFieldSet>)
    ensures var run := RunLogJob(db, lines);
            var entries := db.entries + ReadLogEntries(lines);
            && run.status == COMPLETED
            && run.trace == [ImportLogEntriesStep, AggregateLogDataStep]
            && run.state == LogTables(entries, db.summaries + SummariesOf(GroupByLevelDate(entries)))
  {
    LogJobGraphSize();
    ImportWritesEveryEntry(lines);
    var exec := (n, d) => ExecuteLogNode(lines, n, d);
    var imported := db.(entries := db.entries + ReadLogEntries(lines));
    assert exec(ImportLogEntriesStep, db) == (imported, EXIT_COMPLETED);
    var last := Walk(LogJobGraph, exec, AggregateLogDataStep, imported, 1);
    assert last.trace == [AggregateLogDataStep];
  }

  /** A launch against the store: every chunk written in turn, then the tasklet. */
  method LaunchLogJob(store: LogStore, lines: seq<LogFieldSet>) returns (trace: seq<LogNode>)
    modifies store
    ensures var run := RunLogJob(LogTables(old(store.entries), old(store.summaries)), lines);
            && trace == run.trace
            && LogTables(store.entries, store.summaries) == run.state
  {
    var chunks := ImportLogChunks(lines);
    var i := 0;
    while i < |chunks|
      invariant 0 <= i <= |chunks|
      invariant store.entries == old(store.entries) + Written(chunks[..i])
      invariant store.summaries == old(store.summaries)
    {
      store.WriteEntries(chunks[i].written);
      WrittenPrefix(chunks, i);
      i := i + 1;
    }
    assert chunks[..i] == chunks;
    var status := store.Execute();
    trace := [ImportLogEntriesStep, AggregateLogDataStep];
    LogJobIsLinear(LogTables(old(store.entries), old(store.summaries)), lines);
    ImportWritesEveryEntry(lines);
  }

  lemma {:induction false} WrittenPrefix<U>(chunks: seq<Chunk<U>>, i: nat)
    requires i < |chunks|
    ensures Written(chunks[..i + 1]) == Written(chunks[..i]) + chunks[i].written
    decreases i
  {
    if i > 0 {
      assert chunks[..i + 1][1..] == chunks[1..][..i];
      assert chunks[..i][1..] == chunks[1..][..i - 1];
      WrittenPrefix(chunks[1..], i - 1);
    } else {
      assert chunks[..1][1..] == [];
    }
  }
}
