/**
 * Shapes of the persisted entities. The database generates an identity for each
 * row; here a row's identity is its position in its table.
 */
module Records {

  datatype LocalDate = LocalDate(year: int, month: nat, day: nat)

  /** A date and a time of day (in nanoseconds since midnight). */
  datatype LocalDateTime = LocalDateTime(date: LocalDate, nanoOfDay: nat)

  /** A row of `bank_transaction`; `amount` is an exact decimal. */
  datatype BankingTransaction = BankingTransaction(
    accountNumber: string,
    amount: real,
    transactionDate: LocalDateTime,
    status: string)

  /** A row of `log_entry`. */
  datatype LogEntry = LogEntry(timestamp: LocalDateTime, level: string, component: string, message: string)

  /** A row of `log_summary`; `count` is a Java `Integer`. */
  datatype LogSummary = LogSummary(level: string, logDate: LocalDate, count: int)

  const PENDING: string := "PENDING"
  const PROCESSED: string := "PROCESSED"
}
