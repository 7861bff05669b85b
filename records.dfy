/** The stored record types of the shop (the models under backend/models), with their
    status enumerations and defaults. Amounts and prices are integers (cents). */
module Records {
  import opened Common

  /** Payment.status: "pending" (the default), "confirmed", "rejected". */
  datatype PaymentStatus = PaymentPending | PaymentConfirmed | PaymentRejected

  /** A bank-transfer payment for one checkout; `evidence` is the stored
      reference of the uploaded proof file, if any. */
  datatype Payment = Payment(
    id: Id,
    userId: Id,
    checkoutId: Id,
    accountNumber: string,
    amount: int,
    evidence: Option<string>,
    status: PaymentStatus)

  /** Transaction.status: "pending" (the schema default), "completed", "failed", "refunded". */
  datatype TxStatus = TxPending | TxCompleted | TxFailed | TxRefunded

  /** Transaction.type: "payment" (the default) or "refund". */
  datatype TxKind = PaymentTx | RefundTx

  /** A ledger entry; `checkoutId` is optional in the schema and refund
      entries are created without one. */
  datatype Transaction = Transaction(
    id: Id,
    paymentId: Id,
    userId: Id,
    checkoutId: Option<Id>,
    amount: int,
    status: TxStatus,
    kind: TxKind)

  /** RefundRequest.status: "pending" (the default), "approved", "rejected". */
  datatype RefundStatus = RefundPending | RefundApproved | RefundRejected

  datatype RefundRequest = RefundRequest(
    id: Id,
    transactionId: Id,
    userId: Id,
    reason: string,
    status: RefundStatus)

  /** One ordered line of a checkout: a snapshot of the product's name and price. */
  datatype CheckoutItem = CheckoutItem(product: Id, productName: string, quantity: int, price: int)

  /** A placed order. Its `status` is a free string in the schema (default
      "Pending"); the handlers only ever write one of `CheckoutStatuses`. */
  datatype Checkout = Checkout(
    id: Id,
    fname: string,
    lname: string,
    street: string,
    city: string,
    state: string,
    zipcode: string,
    total: int,
    mobile: int,
    userMail: string,
    userId: Id,
    status: string,
    items: seq<CheckoutItem>)

  const DefaultCheckoutStatus: string := "Pending"

  /** The three statuses the checkout handlers accept. */
  const CheckoutStatuses: seq<string> := ["Pending", "In Progress", "Completed"]

  /** A line of a user's cart; `price` is the product's price when it was added. */
  datatype CartRow = CartRow(id: Id, user: Id, product: Id, quantity: int, price: int)

  /** A catalogue product; `quantity` is its stock, `image` a stored path. */
  datatype Product = Product(
    id: Id,
    name: string,
    description: string,
    category: string,
    condition: string,
    quantity: int,
    price: int,
    guidance: string,
    image: string)

  const DefaultCondition: string := "New"
  const DefaultGuidance: string := "No guidance available"
}
