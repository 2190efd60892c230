/** The decider between the import and the two branches of the banking job. */
module TransactionDecider {
  import opened Records

  const PROCESS: string := "PROCESS"
  const NO_PENDING: string := "NO_PENDING"

  /** The repository's `countByStatus`: rows whose status is exactly `status`. */
  function CountByStatus(table: seq<BankingTransaction>, status: string): (n: nat)
    ensures n <= |table|
  {
    if |table| == 0 then 0
    else CountByStatus(table[..|table| - 1], status) + (if table[|table| - 1].status == status then 1 else 0)
  }

  /** The count is positive exactly when some row has the status. */
  lemma {:induction false} CountPositiveIffPresent(table: seq<BankingTransaction>, status: string)
    ensures CountByStatus(table, status) > 0 <==> exists i :: 0 <= i < |table| && table[i].status == status
  {
    if |table| > 0 {
      var prefix := table[..|table| - 1];
      CountPositiveIffPresent(prefix, status);
      assert forall i :: 0 <= i < |prefix| ==> prefix[i] == table[i];
    }
  }

  /** The flow token: go and process when some row is PENDING, otherwise report none. */
  function Decide(table: seq<BankingTransaction>): (token: string)
    ensures token == PROCESS || token == NO_PENDING
    ensures token == PROCESS <==> exists i :: 0 <= i < |table| && table[i].status == PENDING
  {
    var pendingCount := CountByStatus(table, PENDING);
    CountPositiveIffPresent(table, PENDING);
    if pendingCount > 0 then PROCESS else NO_PENDING
  }

  /** Replacing one row changes the count only by what that row contributes. */
  lemma {:induction false} CountByStatusUpdate(table: seq<BankingTransaction>, i: nat, t: BankingTransaction, status: string)
    requires i < |table|
    ensures CountByStatus(table[i := t], status)
            == CountByStatus(table, status)
               - (if table[i].status == status then 1 else 0)
               + (if t.status == status then 1 else 0)
    decreases |table|
  {
    var last := |table| - 1;
    var updated := table[i := t];
    if i < last {
      assert updated[..last] == table[..last][i := t];
      CountByStatusUpdate(table[..last], i, t, status);
    } else {
      assert updated[..last] == table[..last];
    }
  }

  /** Only the PENDING rows matter: changing a row that is not PENDING into another that is not leaves the decision alone. */
  lemma DecideIgnoresOtherStatuses(table: seq<BankingTransaction>, i: nat, t: BankingTransaction)
    requires i < |table| && table[i].status != PENDING && t.status != PENDING
    ensures Decide(table[i := t]) == Decide(table)
  {
    CountByStatusUpdate(table, i, t, PENDING);
  }
}
