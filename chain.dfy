/** Outcomes of contract reads and transactions, which the model receives as inputs. */
module Chain {
  /** A contract read either answers or throws with a message. */
  datatype Read<T> = Value(value: T) | ReadFailed(error: string)

  /**
   * A transaction: refused before it was sent, sent but failed while
   * waiting for the receipt, or confirmed.
   */
  datatype TxOutcome = Refused(error: string) | Reverted(hash: string, error: string) | Confirmed(hash: string)
}
