/** The client-side payment state (frontend/src/redux/slices/paymentSlice.js):
    the lists the pages show, the paging numbers, the last report, a request
    status and an error message, and how each settled request updates them.
    Each case of the reducer is a method of `PaymentSlice` that changes the
    state in place; the list updates are functions on sequences, so that what
    they change can be proved once. Elements are found by identifier with the
    same first-match lookups as the store (`find`/`findIndex` by `_id`). */
module PaymentSlice {
  import opened Common
  import opened Records
  import opened Store
  import opened Reporting
  import opened PaymentController

  // ---- One-element list updates ----

  /** `const i = payments.findIndex(p => p._id === id); if (i !== -1) payments[i].status = st` */
  function WithPaymentStatus(ps: seq<Payment>, id: Id, st: PaymentStatus): (r: seq<Payment>)
    ensures |r| == |ps|
    ensures forall i :: 0 <= i < |ps| && PaymentIndex(ps, id) != Some(i) ==> r[i] == ps[i]
    ensures PaymentIndex(ps, id).Some? ==> r[PaymentIndex(ps, id).value] == ps[PaymentIndex(ps, id).value].(status := st)
    ensures PaymentIndex(r, id) == PaymentIndex(ps, id)
  {
    match PaymentIndex(ps, id)
    case None => ps
    case Some(k) =>
      var r := ps[k := ps[k].(status := st)];
      FindFirstPointwise(ps, r, (p: Payment) => p.id == id);
      r
  }

  /** `const p = payments.find(p => p._id === id); if (p) p.evidence = ev` */
  function WithEvidence(ps: seq<Payment>, id: Id, ev: Option<string>): (r: seq<Payment>)
    ensures |r| == |ps|
    ensures forall i :: 0 <= i < |ps| && PaymentIndex(ps, id) != Some(i) ==> r[i] == ps[i]
    ensures PaymentIndex(ps, id).Some? ==> r[PaymentIndex(ps, id).value] == ps[PaymentIndex(ps, id).value].(evidence := ev)
    ensures PaymentIndex(r, id) == PaymentIndex(ps, id)
  {
    match PaymentIndex(ps, id)
    case None => ps
    case Some(k) =>
      var r := ps[k := ps[k].(evidence := ev)];
      FindFirstPointwise(ps, r, (p: Payment) => p.id == id);
      r
  }

  /** `const i = refundRequests.findIndex(r => r._id === id); if (i !== -1) refundRequests[i].status = st` */
  function WithRequestStatus(rs: seq<RefundRequest>, id: Id, st: RefundStatus): (r: seq<RefundRequest>)
    ensures |r| == |rs|
    ensures forall i :: 0 <= i < |rs| && RefundRequestIndex(rs, id) != Some(i) ==> r[i] == rs[i]
    ensures RefundRequestIndex(rs, id).Some? ==> r[RefundRequestIndex(rs, id).value] == rs[RefundRequestIndex(rs, id).value].(status := st)
    ensures RefundRequestIndex(r, id) == RefundRequestIndex(rs, id)
  {
    match RefundRequestIndex(rs, id)
    case None => rs
    case Some(k) =>
      var r := rs[k := rs[k].(status := st)];
      FindFirstPointwise(rs, r, (q: RefundRequest) => q.id == id);
      r
  }

  /** Marks the transaction at the index a lookup found as refunded. */
  function MarkRefunded(ts: seq<Transaction>, k: Option<nat>): (r: seq<Transaction>)
    requires k.Some? ==> k.value < |ts|
    ensures |r| == |ts|
    ensures forall i :: 0 <= i < |ts| && k != Some(i) ==> r[i] == ts[i]
    ensures k.Some? ==> r[k.value] == ts[k.value].(status := TxRefunded)
  {
    if k.None? then ts else ts[k.value := ts[k.value].(status := TxRefunded)]
  }

  /** Settling the same payment the same way twice is settling it once. */
  lemma SettleTwiceIsOnce(ps: seq<Payment>, id: Id, st: PaymentStatus)
    ensures WithPaymentStatus(WithPaymentStatus(ps, id, st), id, st) == WithPaymentStatus(ps, id, st)
  {
    var once := WithPaymentStatus(ps, id, st);
    var twice := WithPaymentStatus(once, id, st);
    assert forall i :: 0 <= i < |ps| ==> twice[i] == once[i];
  }

  /** A later decision on the same payment overrides an earlier one: only the
      last status written survives. */
  lemma LastSettlementWins(ps: seq<Payment>, id: Id, first: PaymentStatus, second: PaymentStatus)
    ensures WithPaymentStatus(WithPaymentStatus(ps, id, first), id, second) == WithPaymentStatus(ps, id, second)
  {
    var a := WithPaymentStatus(WithPaymentStatus(ps, id, first), id, second);
    var b := WithPaymentStatus(ps, id, second);
    assert forall i :: 0 <= i < |ps| ==> a[i] == b[i];
  }

  // ---- The refund list update ----

  /** issueRefund.fulfilled as written: it looks for a transaction whose own
      identifier is the request's argument, which is the refunded payment's
      identifier. */
  function RefundedAsWritten(ts: seq<Transaction>, paymentId: Id): seq<Transaction> {
    MarkRefunded(ts, TransactionIndex(ts, paymentId))
  }

  /** The list update the refund handler calls for: the payment-type entry of
      the refunded payment, which the store marks refunded, is marked
      refunded in the list too. */
  function RefundedEntry(ts: seq<Transaction>, paymentId: Id): seq<Transaction> {
    MarkRefunded(ts, PaymentEntryOf(ts, paymentId))
  }

  /** The reducer as written changes nothing unless some listed transaction
      has the refunded payment's identifier as its own. Identifiers are
      unique across the collections, so no transaction has it, and the list
      is never updated. */
  lemma AsWrittenNeverMarks(ts: seq<Transaction>, paymentId: Id)
    requires forall k :: 0 <= k < |ts| ==> ts[k].id != paymentId
    ensures RefundedAsWritten(ts, paymentId) == ts
  {
  }

  /** A one-entry list on which the two updates differ: the reducer as
      written leaves the payment's entry as it was, while the store (and the
      corrected update) marks it refunded. */
  lemma AsWrittenMissesTheEntry()
    ensures var ts := [Transaction(1, 0, 7, Some(5), 100, TxCompleted, PaymentTx)];
      && RefundedAsWritten(ts, 0) == ts
      && RefundedEntry(ts, 0)[0].status == TxRefunded
  {
    var ts := [Transaction(1, 0, 7, Some(5), 100, TxCompleted, PaymentTx)];
    assert TransactionIndex(ts, 0).None?;
    FindFirstIs(ts, (t: Transaction) => t.paymentId == 0 && t.kind == PaymentTx, 0);
  }

  /** The corrected update shows, for every listed entry, exactly what
      IssueRefund stored: the store's write to the payment's entry, without
      the new refund entry appended after the listed ones. */
  lemma RefundedEntryAgreesWithStore(s: DbState, p: Payment)
    requires PaymentEntryOf(s.transactions, p.id).Some?
    ensures var j := PaymentEntryOf(s.transactions, p.id).value;
      && |WithRefund(s, p, j).transactions| == |s.transactions| + 1
      && RefundedEntry(s.transactions, p.id) == WithRefund(s, p, j).transactions[..|s.transactions|]
  {
    var ts := s.transactions;
    var j := PaymentEntryOf(ts, p.id).value;
    var stored := WithRefund(s, p, j).transactions;
    assert forall i :: 0 <= i < |ts| ==> RefundedEntry(ts, p.id)[i] == stored[..|ts|][i];
  }

  // ---- Messages of rejected requests ----

  /** The requests whose `pending` and `rejected` actions the slice handles;
      the others change nothing while pending or when failing. */
  datatype Request =
    | FetchPayments | AddPaymentMethod | UploadEvidence | ConfirmPayment | RejectPayment
    | IssueRefund | GetTransactionReport | CreateRefundRequest | GetRefundRequests | HandleRefundRequest

  /** The message a handled rejection falls back to; None for the requests
      without a `rejected` case. */
  function FallbackMessage(r: Request): (m: Option<string>)
    ensures m.Some? ==> m.value != ""
    ensures m.None? <==> r in {AddPaymentMethod, UploadEvidence, ConfirmPayment, RejectPayment}
  {
    match r
    case FetchPayments => Some("Failed to fetch payments")
    case IssueRefund => Some("Failed to issue refund")
    case GetTransactionReport => Some("Failed to fetch report")
    case CreateRefundRequest => Some("Failed to submit refund request")
    case GetRefundRequests => Some("Failed to fetch refund requests")
    case HandleRefundRequest => Some("Failed to handle refund request")
    case _ => None
  }

  /** A JavaScript value used as a condition: a missing or empty text is falsy. */
  predicate Truthy(x: Option<string>) {
    x.Some? && x.value != ""
  }

  /** `action.payload?.message || action.error.message || fallback`: the
      first truthy candidate, so never null and never empty. */
  function RejectionMessage(payloadMessage: Option<string>, errorMessage: Option<string>, fallback: string): (m: string)
    requires fallback != ""
    ensures m != ""
    ensures Truthy(payloadMessage) ==> m == payloadMessage.value
    ensures !Truthy(payloadMessage) && Truthy(errorMessage) ==> m == errorMessage.value
    ensures !Truthy(payloadMessage) && !Truthy(errorMessage) ==> m == fallback
  {
    if Truthy(payloadMessage) then payloadMessage.value
    else if Truthy(errorMessage) then errorMessage.value
    else fallback
  }

  // ---- The slice ----

  datatype LoadStatus = Idle | Loading | Succeeded | Failed

  /** The body of a page of the listing endpoints: the admin listing has
      `payments`, the user's listing `transactions`. */
  datatype ListingPage = ListingPage(payments: seq<Payment>, transactions: seq<Transaction>, total: int, page: int, pages: int)

  datatype SliceState = SliceState(
    payments: seq<Payment>,
    transactions: seq<Transaction>,
    refundRequests: seq<RefundRequest>,
    total: int,
    page: int,
    pages: int,
    report: Option<Report>,
    status: LoadStatus,
    error: Option<string>)

  class PaymentSlice {
    var payments: seq<Payment>
    var transactions: seq<Transaction>
    var refundRequests: seq<RefundRequest>
    var total: int
    var page: int
    var pages: int
    var report: Option<Report>
    var status: LoadStatus
    var error: Option<string>

    function State(): SliceState
      reads this
    {
      SliceState(payments, transactions, refundRequests, total, page, pages, report, status, error)
    }

    /** An error, once set, is a non-empty message. */
    ghost predicate Valid()
      reads this
    {
      error.Some? ==> error.value != ""
    }

    constructor ()
      ensures Valid()
      ensures State() == SliceState([], [], [], 0, 1, 1, None, Idle, None)
    {
      payments, transactions, refundRequests := [], [], [];
      total, page, pages := 0, 1, 1;
      report, status, error := None, Idle, None;
    }

    /** clearError: only the error goes. */
    method ClearError()
      requires Valid()
      modifies this
      ensures Valid()
      ensures State() == old(State()).(error := None)
    {
      error := None;
    }

    /** A request was sent: the handled ones show loading. */
    method RequestPending(r: Request)
      requires Valid()
      modifies this
      ensures Valid()
      ensures State() == if FallbackMessage(r).Some? then old(State()).(status := Loading) else old(State())
    {
      if FallbackMessage(r).Some? {
        status := Loading;
      }
    }

    /** A request failed: the handled ones record a non-empty message. */
    method RequestRejected(r: Request, payloadMessage: Option<string>, errorMessage: Option<string>)
      requires Valid()
      modifies this
      ensures Valid()
      ensures FallbackMessage(r).None? ==> State() == old(State())
      ensures FallbackMessage(r).Some? ==>
        State() == old(State()).(status := Failed,
                                 error := Some(RejectionMessage(payloadMessage, errorMessage, FallbackMessage(r).value)))
    {
      var fallback := FallbackMessage(r);
      if fallback.Some? {
        status := Failed;
        error := Some(RejectionMessage(payloadMessage, errorMessage, fallback.value));
      }
    }

    /** fetchPayments.fulfilled: the admin listing replaces the payments, the
        user's the transactions, never both; the paging numbers are taken
        only when the total is not 0. */
    method FetchPaymentsFulfilled(isAdmin: bool, data: ListingPage)
      requires Valid()
      modifies this
      ensures Valid()
      ensures var listed := if isAdmin then old(State()).(payments := data.payments)
                            else old(State()).(transactions := data.transactions);
        State() == if data.total != 0 then listed.(status := Succeeded, total := data.total, page := data.page, pages := data.pages)
                   else listed.(status := Succeeded)
    {
      status := Succeeded;
      if isAdmin {
        payments := data.payments;
      } else {
        transactions := data.transactions;
      }
      if data.total != 0 {
        total, page, pages := data.total, data.page, data.pages;
      }
    }

    /** addPaymentMethod.fulfilled: the created payment is appended. */
    method AddPaymentMethodFulfilled(created: Payment)
      requires Valid()
      modifies this
      ensures Valid()
      ensures State() == old(State()).(payments := old(payments) + [created])
    {
      payments := payments + [created];
    }

    /** uploadEvidence.fulfilled: the evidence the server stored is copied
        into the first listed payment with that identifier. */
    method UploadEvidenceFulfilled(paymentId: Id, evidence: Option<string>)
      requires Valid()
      modifies this
      ensures Valid()
      ensures State() == old(State()).(payments := WithEvidence(old(payments), paymentId, evidence))
    {
      payments := WithEvidence(payments, paymentId, evidence);
    }

    /** confirmPayment.fulfilled */
    method ConfirmPaymentFulfilled(id: Id)
      requires Valid()
      modifies this
      ensures Valid()
      ensures State() == old(State()).(payments := WithPaymentStatus(old(payments), id, PaymentConfirmed))
    {
      payments := WithPaymentStatus(payments, id, PaymentConfirmed);
    }

    /** rejectPayment.fulfilled */
    method RejectPaymentFulfilled(id: Id)
      requires Valid()
      modifies this
      ensures Valid()
      ensures State() == old(State()).(payments := WithPaymentStatus(old(payments), id, PaymentRejected))
    {
      payments := WithPaymentStatus(payments, id, PaymentRejected);
    }

    /** issueRefund.fulfilled, with the refunded payment's entry found by its
        payment (see RefundedAsWritten for the lookup as written). */
    method IssueRefundFulfilled(paymentId: Id)
      requires Valid()
      modifies this
      ensures Valid()
      ensures State() == old(State()).(status := Succeeded, transactions := RefundedEntry(old(transactions), paymentId))
    {
      status := Succeeded;
      transactions := RefundedEntry(transactions, paymentId);
    }

    /** getTransactionReport.fulfilled */
    method GetTransactionReportFulfilled(r: Report)
      requires Valid()
      modifies this
      ensures Valid()
      ensures State() == old(State()).(status := Succeeded, report := Some(r))
    {
      status := Succeeded;
      report := Some(r);
    }

    /** createRefundRequest.fulfilled: nothing is listed. */
    method CreateRefundRequestFulfilled()
      requires Valid()
      modifies this
      ensures Valid()
      ensures State() == old(State()).(status := Succeeded)
    {
      status := Succeeded;
    }

    /** getRefundRequests.fulfilled */
    method GetRefundRequestsFulfilled(rs: seq<RefundRequest>)
      requires Valid()
      modifies this
      ensures Valid()
      ensures State() == old(State()).(status := Succeeded, refundRequests := rs)
    {
      status := Succeeded;
      refundRequests := rs;
    }

    /** handleRefundRequest.fulfilled: the decided request takes the status
        the server returned; its transaction is marked refunded only when the
        request was approved. */
    method HandleRefundRequestFulfilled(requestId: Id, decided: RefundRequest)
      requires Valid()
      modifies this
      ensures Valid()
      ensures State() == old(State()).(
        status := Succeeded,
        refundRequests := WithRequestStatus(old(refundRequests), requestId, decided.status),
        transactions := if decided.status == RefundApproved
                        then MarkRefunded(old(transactions), TransactionIndex(old(transactions), decided.transactionId))
                        else old(transactions))
    {
      status := Succeeded;
      refundRequests := WithRequestStatus(refundRequests, requestId, decided.status);
      var k := TransactionIndex(transactions, decided.transactionId);
      if k.Some? && decided.status == RefundApproved {
        transactions := MarkRefunded(transactions, k);
      }
    }
  }
}
