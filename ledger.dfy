/** The payment record kept by the payment screen. */
module Ledger {
  import opened Numbers

  /** `'sent' | 'received'`. */
  datatype Kind = Sent | Received

  datatype Transaction = Transaction(
    id: int,
    userId: string,
    username: string,
    sendto: string,
    sendtoemail: string,
    amount: Number,
    status: string,
    kind: Kind,
    createdAt: string)
}
