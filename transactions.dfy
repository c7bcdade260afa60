/** The immutable Transaction record. Its getters are the datatype's destructors. */
module Transactions {

  /** The clock reading taken when a record is made; the model does not interpret it. */
  type Timestamp = int

  /** One recorded ledger event: every field is fixed by the constructor, and all but
      `timestamp` are taken verbatim from its arguments. */
  datatype Transaction = Transaction(
    transactionId: string,
    accountNumber: string,
    transactionType: string,
    amount: real,
    balanceAfter: real,
    description: string,
    timestamp: Timestamp)
}
