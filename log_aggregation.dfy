/**
 * The aggregation tasklet: group the log entries by level and calendar date,
 * count each group, and append one summary per group.
 */
module LogAggregation {
  import opened Batch
  import opened Records

  /** The grouping key: a level and the date part of a timestamp. */
  datatype GroupKey = GroupKey(level: string, logDate: LocalDate)

  /** One row of the grouped query: level, log_date, cnt. */
  datatype GroupRow = GroupRow(level: string, logDate: LocalDate, cnt: nat)

  function KeyOf(e: LogEntry): GroupKey {
    GroupKey(e.level, e.timestamp.date)
  }

  function RowKey(row: GroupRow): GroupKey {
    GroupKey(row.level, row.logDate)
  }

  /** COUNT(*) of one group: the entries carrying `key`. */
  function CountKey(entries: seq<LogEntry>, key: GroupKey): (n: nat)
    ensures n <= |entries|
    ensures n > 0 <==> exists i :: 0 <= i < |entries| && KeyOf(entries[i]) == key
  {
    if |entries| == 0 then 0
    else
      var prefix := entries[..|entries| - 1];
      assert forall i :: 0 <= i < |prefix| ==> prefix[i] == entries[i];
      CountKey(prefix, key) + (if KeyOf(entries[|entries| - 1]) == key then 1 else 0)
  }

  /** The keys present among the entries, each once, in order of first appearance. */
  function DistinctKeys(entries: seq<LogEntry>): (keys: seq<GroupKey>)
    ensures forall i, j :: 0 <= i < j < |keys| ==> keys[i] != keys[j]
    ensures forall k :: k in keys <==> exists i :: 0 <= i < |entries| && KeyOf(entries[i]) == k
  {
    if |entries| == 0 then []
    else
      var prefix := entries[..|entries| - 1];
      assert forall i :: 0 <= i < |prefix| ==> prefix[i] == entries[i];
      var keys := DistinctKeys(prefix);
      var key := KeyOf(entries[|entries| - 1]);
      if key in keys then keys else keys + [key]
  }

  /**
   * `SELECT level, CAST(timestamp AS DATE), COUNT(*) FROM log_entry GROUP BY
   * level, CAST(timestamp AS DATE)`. SQL leaves the row order open; here the
   * groups come in order of their first entry.
   */
  function GroupByLevelDate(entries: seq<LogEntry>): (rows: seq<GroupRow>)
    ensures forall i :: 0 <= i < |rows| ==> rows[i].cnt == CountKey(entries, RowKey(rows[i]))
    ensures forall i :: 0 <= i < |rows| ==> rows[i].cnt >= 1
    ensures forall i, j :: 0 <= i < j < |rows| ==> RowKey(rows[i]) != RowKey(rows[j])
    ensures forall i :: 0 <= i < |entries| ==> exists j :: 0 <= j < |rows| && RowKey(rows[j]) == KeyOf(entries[i])
  {
    var keys := DistinctKeys(entries);
    var rows := seq(|keys|, i requires 0 <= i < |keys| => GroupRow(keys[i].level, keys[i].logDate, CountKey(entries, keys[i])));
    assert forall i :: 0 <= i < |rows| ==> RowKey(rows[i]) == keys[i] && keys[i] in keys;
    assert forall i :: 0 <= i < |entries| ==> KeyOf(entries[i]) in keys;
    rows
  }

  // ---------------------------------------------------------------------------
  // The group counts add up to the number of entries.

  function SumKeyCounts(keys: seq<GroupKey>, entries: seq<LogEntry>): nat
  {
    if |keys| == 0 then 0
    else SumKeyCounts(keys[..|keys| - 1], entries) + CountKey(entries, keys[|keys| - 1])
  }

  function SumCounts(rows: seq<GroupRow>): nat
  {
    if |rows| == 0 then 0 else SumCounts(rows[..|rows| - 1]) + rows[|rows| - 1].cnt
  }

  /** One more entry adds one to the sum over a key list, if its key is listed. */
  lemma {:induction false} SumKeyCountsExtend(keys: seq<GroupKey>, entries: seq<LogEntry>, e: LogEntry)
    requires forall i, j :: 0 <= i < j < |keys| ==> keys[i] != keys[j]
    ensures SumKeyCounts(keys, entries + [e]) == SumKeyCounts(keys, entries) + (if KeyOf(e) in keys then 1 else 0)
    decreases |keys|
  {
    if |keys| > 0 {
      var init := keys[..|keys| - 1];
      assert (entries + [e])[..|entries|] == entries;
      assert forall k :: k in init ==> k != keys[|keys| - 1];
      SumKeyCountsExtend(init, entries, e);
      assert KeyOf(e) in keys <==> KeyOf(e) in init || KeyOf(e) == keys[|keys| - 1];
    }
  }

  lemma {:induction false} SumKeyCountsOfDistinctKeys(entries: seq<LogEntry>)
    ensures SumKeyCounts(DistinctKeys(entries), entries) == |entries|
    decreases |entries|
  {
    if |entries| > 0 {
      var prefix := entries[..|entries| - 1];
      var e := entries[|entries| - 1];
      assert entries == prefix + [e];
      var keys := DistinctKeys(prefix);
      SumKeyCountsOfDistinctKeys(prefix);
      SumKeyCountsExtend(keys, prefix, e);
      if KeyOf(e) !in keys {
        assert (keys + [KeyOf(e)])[..|keys|] == keys;
        assert CountKey(prefix, KeyOf(e)) == 0;
      }
    }
  }

  lemma {:induction false} SumCountsOfKeyRows(rows: seq<GroupRow>, keys: seq<GroupKey>, entries: seq<LogEntry>)
    requires |rows| == |keys|
    requires forall i :: 0 <= i < |rows| ==> rows[i].cnt == CountKey(entries, keys[i])
    ensures SumCounts(rows) == SumKeyCounts(keys, entries)
    decreases |rows|
  {
    if |rows| > 0 {
      SumCountsOfKeyRows(rows[..|rows| - 1], keys[..|keys| - 1], entries);
    }
  }

  /** Every entry is counted in exactly one group. */
  lemma GroupCountsSumToEntries(entries: seq<LogEntry>)
    ensures SumCounts(GroupByLevelDate(entries)) == |entries|
  {
    var keys := DistinctKeys(entries);
    var rows := GroupByLevelDate(entries);
    SumCountsOfKeyRows(rows, keys, entries);
    SumKeyCountsOfDistinctKeys(entries);
  }

  // ---------------------------------------------------------------------------
  // Summaries

  const INT_RANGE: int := 0x1_0000_0000
  const INT_MIN: int := -0x8000_0000
  const INT_MAX: int := 0x7fff_ffff

  /** Java's `Number.intValue()` on a long: keep the low 32 bits, two's complement. */
  function IntValue(n: int): (v: int)
    ensures INT_MIN <= v <= INT_MAX
    ensures (n - v) % INT_RANGE == 0
    ensures INT_MIN <= n <= INT_MAX ==> v == n
  {
    var low := n % INT_RANGE;
    if low <= INT_MAX then low else low - INT_RANGE
  }

  /** One result row as a summary entity: level and date copied, the count narrowed by `intValue()`. */
  function SummaryOf(row: GroupRow): (summary: LogSummary)
    ensures summary.level == row.level && summary.logDate == row.logDate
    ensures INT_MIN <= summary.count <= INT_MAX
    ensures row.cnt <= INT_MAX ==> summary.count == row.cnt
  {
    LogSummary(row.level, row.logDate, IntValue(row.cnt))
  }

  function SummariesOf(rows: seq<GroupRow>): (summaries: seq<LogSummary>)
    ensures |summaries| == |rows|
    ensures forall i :: 0 <= i < |rows| ==> summaries[i] == SummaryOf(rows[i])
  {
    seq(|rows|, i requires 0 <= i < |rows| => SummaryOf(rows[i]))
  }

  function SumSummaryCounts(summaries: seq<LogSummary>): int
  {
    if |summaries| == 0 then 0
    else SumSummaryCounts(summaries[..|summaries| - 1]) + summaries[|summaries| - 1].count
  }

  lemma {:induction false} SummariesKeepSmallCounts(rows: seq<GroupRow>)
    requires forall i :: 0 <= i < |rows| ==> rows[i].cnt <= INT_MAX
    ensures SumSummaryCounts(SummariesOf(rows)) == SumCounts(rows)
    decreases |rows|
  {
    if |rows| > 0 {
      var init := rows[..|rows| - 1];
      assert SummariesOf(rows)[..|rows| - 1] == SummariesOf(init);
      SummariesKeepSmallCounts(init);
    }
  }

  /**
   * One summary per group, in group order, with the group's level and date.
   * No two share a key, and while the table holds fewer than 2^31 entries
   * every count is the group's exact size, at least one, and the counts add
   * up to the number of entries.
   */
  lemma SummariesDescribeGroups(entries: seq<LogEntry>)
    requires |entries| <= INT_MAX
    ensures var rows := GroupByLevelDate(entries);
            var summaries := SummariesOf(rows);
            && |summaries| == |rows|
            && (forall i :: 0 <= i < |rows| ==>
                  && summaries[i].level == rows[i].level
                  && summaries[i].logDate == rows[i].logDate
                  && summaries[i].count == rows[i].cnt >= 1)
            && (forall i, j :: 0 <= i < j < |summaries| ==>
                  (summaries[i].level, summaries[i].logDate) != (summaries[j].level, summaries[j].logDate))
            && SumSummaryCounts(summaries) == |entries|
  {
    var rows := GroupByLevelDate(entries);
    GroupCountsSumToEntries(entries);
    assert forall i :: 0 <= i < |rows| ==> rows[i].cnt <= |entries|;
    SummariesKeepSmallCounts(rows);
  }

  /** The two tables the tasklet works on. */
  class LogStore {
    var entries: seq<LogEntry>
    var summaries: seq<LogSummary>

    constructor ()
      ensures entries == [] && summaries == []
    {
      entries := [];
      summaries := [];
    }

    /** The import step's writer: persist one chunk's batch of entries. */
    method WriteEntries(batch: seq<LogEntry>)
      modifies this`entries
      ensures entries == old(entries) + batch
    {
      entries := entries + batch;
    }

    /**
     * The tasklet: run the grouped query, then for each result row build a
     * summary and persist it. Log entries are never touched; earlier summaries stay.
     */
    method Execute() returns (status: RepeatStatus)
      modifies this`summaries
      ensures status == FINISHED
      ensures summaries == old(summaries) + SummariesOf(GroupByLevelDate(entries))
    {
      var results := GroupByLevelDate(entries);
      var i := 0;
      while i < |results|
        invariant 0 <= i <= |results|
        invariant summaries == old(summaries) + SummariesOf(results[..i])
      {
        var row := results[i];
        var summary := LogSummary(row.level, row.logDate, IntValue(row.cnt));
        summaries := summaries + [summary];
        assert SummariesOf(results[..i + 1]) == SummariesOf(results[..i]) + [summary];
        i := i + 1;
      }
      assert results[..i] == results;
      status := FINISHED;
    }
  }

  /** Running the tasklet again over the same entries appends a second, identical set of summaries. */
  method ExecuteTwice(store: LogStore)
    modifies store`summaries
    ensures var added := SummariesOf(GroupByLevelDate(store.entries));
            store.summaries == old(store.summaries) + added + added
  {
    var first := store.Execute();
    var second := store.Execute();
  }
}
