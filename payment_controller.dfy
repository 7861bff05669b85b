/** The payment handlers: a payment and its ledger entry written in one
    session (clearing the paid items from the cart), evidence upload, the
    admin's confirm, reject and refund, the transaction report, and the
    refund-request workflow. Each handler is a method on the shared store;
    a failure the source raises inside its `try` answers ServerError and
    keeps whatever was saved before it. */
module PaymentController {
  import opened Common
  import opened Records
  import opened Store
  import opened Reporting

  /** The authenticated caller the auth middleware attaches to the request. */
  datatype Caller = Caller(userId: Id, isAdmin: bool)

  // ---- Clearing the paid items from the cart ----

  /** `Cart.deleteOne({ user, product })`: the first such row goes, if any. */
  function DeleteFirstRow(cs: seq<CartRow>, user: Id, product: Id): seq<CartRow> {
    match CartRowFor(cs, user, product)
    case None => cs
    case Some(i) => RemoveAt(cs, i)
  }

  /** The cart after one `deleteOne` per checkout item, in item order. */
  function DeleteForItems(cs: seq<CartRow>, user: Id, items: seq<CheckoutItem>): seq<CartRow>
    decreases |items|
  {
    if |items| == 0 then cs
    else DeleteFirstRow(DeleteForItems(cs, user, items[..|items| - 1]), user, items[|items| - 1].product)
  }

  /** The rows one user holds for one product, in cart order. */
  function RowsOf(cs: seq<CartRow>, user: Id, product: Id): seq<CartRow> {
    Filter(cs, (r: CartRow) => r.user == user && r.product == product)
  }

  /** How many checkout items name a product. */
  function CountItems(items: seq<CheckoutItem>, product: Id): nat
    decreases |items|
  {
    if |items| == 0 then 0
    else CountItems(items[..|items| - 1], product) + (if items[|items| - 1].product == product then 1 else 0)
  }

  /** `s` without its first `n` elements (all of them if there are fewer). */
  function Drop<T>(s: seq<T>, n: nat): (r: seq<T>)
    ensures |r| == if n >= |s| then 0 else |s| - n
  {
    if n >= |s| then [] else s[n..]
  }

  /** One `deleteOne` removes the first of the caller's rows for that
      product and leaves every other (user, product) group as it was. */
  lemma DeleteFirstRowGroups(cs: seq<CartRow>, user: Id, product: Id, u: Id, q: Id)
    ensures RowsOf(DeleteFirstRow(cs, user, product), u, q)
      == if u == user && q == product then Drop(RowsOf(cs, u, q), 1) else RowsOf(cs, u, q)
  {
    var sel := (r: CartRow) => r.user == user && r.product == product;
    var grp := (r: CartRow) => r.user == u && r.product == q;
    match CartRowFor(cs, user, product)
    case None =>
      if u == user && q == product {
        FilterNoMatch(cs, grp);
      }
    case Some(i) =>
      if u == user && q == product {
        FilterRemoveFirstMatch(cs, i, grp);
      } else {
        assert sel(cs[i]);
        FilterRemoveUnmatched(cs, i, grp);
      }
  }

  /** The cart clean-up, group by group: the caller's rows for a product lose
      as many leading rows as the checkout has items naming the product, and
      every other user's rows are untouched. */
  lemma {:induction false} DeleteForItemsGroups(cs: seq<CartRow>, user: Id, items: seq<CheckoutItem>, u: Id, q: Id)
    ensures RowsOf(DeleteForItems(cs, user, items), u, q)
      == if u == user then Drop(RowsOf(cs, u, q), CountItems(items, q)) else RowsOf(cs, u, q)
    decreases |items|
  {
    if |items| > 0 {
      var init := items[..|items| - 1];
      var last := items[|items| - 1];
      DeleteForItemsGroups(cs, user, init, u, q);
      DeleteFirstRowGroups(DeleteForItems(cs, user, init), user, last.product, u, q);
    }
  }

  /** After the clean-up the caller keeps a row for a product only if the cart
      held more rows of it than the checkout has items naming it; in
      particular a cart with one row per product keeps none for the
      products paid for. */
  lemma PaidProductsLeaveCart(cs: seq<CartRow>, user: Id, items: seq<CheckoutItem>, q: Id)
    ensures |RowsOf(DeleteForItems(cs, user, items), user, q)|
      == if |RowsOf(cs, user, q)| <= CountItems(items, q) then 0
         else |RowsOf(cs, user, q)| - CountItems(items, q)
  {
    DeleteForItemsGroups(cs, user, items, user, q);
  }

  /** Each `deleteOne` keeps the cart invariants. */
  lemma CartsAfterDeleteFirstRow(cs: seq<CartRow>, user: Id, product: Id, bound: nat)
    requires CartIdsBelow(cs, bound) && UniqueCartIds(cs)
    ensures CartIdsBelow(DeleteFirstRow(cs, user, product), bound)
    ensures UniqueCartIds(DeleteFirstRow(cs, user, product))
  {
    match CartRowFor(cs, user, product)
    case None =>
    case Some(i) => CartsAfterRemove(cs, i, bound);
  }

  // ---- addPaymentMethod ----

  /** The payment document the handler builds. */
  function NewPayment(id: Id, userId: Id, checkoutId: Id, accountNumber: string, amount: int): Payment {
    Payment(id, userId, checkoutId, accountNumber, amount, None, PaymentPending)
  }

  /** The ledger entry written with it: a completed payment-type entry. */
  function NewPaymentEntry(id: Id, p: Payment): (t: Transaction)
    ensures t.kind == PaymentTx && t.status == TxCompleted && Mirrors(t, p)
  {
    Transaction(id, p.id, p.userId, Some(p.checkoutId), p.amount, TxCompleted, PaymentTx)
  }

  /** `for (const item of checkout.items) await Cart.deleteOne(...)`. */
  method ClearPaidItems(cs: seq<CartRow>, user: Id, items: seq<CheckoutItem>) returns (carts: seq<CartRow>)
    ensures carts == DeleteForItems(cs, user, items)
  {
    carts := cs;
    var i := 0;
    while i < |items|
      invariant 0 <= i <= |items|
      invariant carts == DeleteForItems(cs, user, items[..i])
    {
      assert items[..i + 1][..i] == items[..i];
      var row := CartRowFor(carts, user, items[i].product);
      if row.Some? {
        carts := RemoveAt(carts, row.value);
      }
      i := i + 1;
    }
    assert items[..|items|] == items;
  }

  lemma {:induction false} CartsAfterDeleteForItems(cs: seq<CartRow>, user: Id, items: seq<CheckoutItem>, bound: nat)
    requires CartIdsBelow(cs, bound) && UniqueCartIds(cs)
    ensures CartIdsBelow(DeleteForItems(cs, user, items), bound)
    ensures UniqueCartIds(DeleteForItems(cs, user, items))
    decreases |items|
  {
    if |items| > 0 {
      CartsAfterDeleteForItems(cs, user, items[..|items| - 1], bound);
      CartsAfterDeleteFirstRow(DeleteForItems(cs, user, items[..|items| - 1]), user, items[|items| - 1].product, bound);
    }
  }

  /** The store after a committed payment session. */
  function AfterPayment(s: DbState, p: Payment, c: Checkout): DbState {
    s.(payments := s.payments + [p],
       transactions := s.transactions + [NewPaymentEntry(s.nextId + 1, p)],
       carts := DeleteForItems(s.carts, p.userId, c.items),
       nextId := s.nextId + 2)
  }

  /** A committed payment session keeps the store's invariants. */
  lemma ValidAfterPayment(s: DbState, p: Payment, c: Checkout)
    requires ValidState(s)
    requires p.id == s.nextId
    ensures ValidState(AfterPayment(s, p, c))
  {
    var entry := NewPaymentEntry(s.nextId + 1, p);
    var s' := AfterPayment(s, p, c);
    assert forall k :: 0 <= k < |s.payments| ==> s.payments[k].id != p.id;
    LedgerAfterNewPayment(s.payments, s.transactions, s.refundRequests, p, entry);
    assert LedgerConsistent(s'.payments, s'.transactions, s'.refundRequests);
    RefundsAfterAppendTransaction(s.transactions, entry);
    assert EntriesPrecedeRefunds(s'.transactions);
    CartsAfterDeleteForItems(s.carts, p.userId, c.items, s.nextId);
    PaymentIdsGrow(s.payments, p, s.nextId);
    assert PaymentIdsBelow(s'.payments, s'.nextId);
    assert ProductIdsBelow(s'.products, s'.nextId);
    assert CartIdsBelow(s'.carts, s'.nextId);
  }

  lemma PaymentIdsGrow(ps: seq<Payment>, p: Payment, bound: nat)
    requires PaymentIdsBelow(ps, bound) && p.id == bound
    ensures PaymentIdsBelow(ps + [p], bound + 2)
  {
    assert forall k :: 0 <= k < |ps| ==> (ps + [p])[k] == ps[k];
  }

  /** All or nothing: the payment, its completed ledger entry and the cart
      clean-up are committed together, or, when a required field is missing
      or the checkout does not exist, nothing is written at all. */
  method AddPaymentMethod(db: Database, caller: Caller, accountNumber: string, amount: Option<int>, checkoutId: Option<Id>)
    returns (res: Response, created: Option<Payment>)
    requires db.Valid()
    modifies db
    ensures db.Valid()
    ensures res == Created || res == ServerError
    ensures res == Created <==>
      accountNumber != "" && amount.Some? && checkoutId.Some?
      && CheckoutIndex(old(db.checkouts), checkoutId.value).Some?
    ensures res == ServerError ==> db.State() == old(db.State()) && created == None
    ensures res == Created ==>
      var p := NewPayment(old(db.nextId), caller.userId, checkoutId.value, accountNumber, amount.value);
      var c := old(db.checkouts)[CheckoutIndex(old(db.checkouts), checkoutId.value).value];
      created == Some(p) && db.State() == AfterPayment(old(db.State()), p, c)
  {
    // Payment and Transaction both require these paths; save() rejects the
    // document and the session is aborted.
    if accountNumber == "" || amount.None? || checkoutId.None? {
      return ServerError, None;
    }
    // The session's writes are staged here and reach the store on commit.
    var payment := NewPayment(db.nextId, caller.userId, checkoutId.value, accountNumber, amount.value);
    var entry := NewPaymentEntry(db.nextId + 1, payment);
    var payments := db.payments + [payment];
    var transactions := db.transactions + [entry];
    var found := CheckoutIndex(db.checkouts, checkoutId.value);
    if found.None? {
      // "Checkout not found" is thrown: the session is aborted.
      return ServerError, None;
    }
    var checkout := db.checkouts[found.value];
    var carts := ClearPaidItems(db.carts, caller.userId, checkout.items);
    ghost var committed := AfterPayment(db.State(), payment, checkout);
    ValidAfterPayment(db.State(), payment, checkout);
    // Commit.
    db.payments, db.transactions, db.carts, db.nextId := payments, transactions, carts, db.nextId + 2;
    assert db.State() == committed;
    res, created := Created, Some(payment);
  }

  // ---- uploadEvidence ----

  /** The uploaded proof replaces the payment's evidence reference; no file
      gives BadRequest and an unknown payment NotFound, both without a write.
      (Deleting the replaced and the orphaned files is file I/O.) */
  method UploadEvidence(db: Database, file: Option<string>, paymentId: Option<Id>) returns (res: Response)
    requires db.Valid()
    modifies db
    ensures db.Valid()
    ensures file.None? ==> res == BadRequest
    ensures file.Some? && (paymentId.None? || PaymentIndex(old(db.payments), paymentId.value).None?) ==> res == NotFound
    ensures file.Some? && paymentId.Some? && PaymentIndex(old(db.payments), paymentId.value).Some? ==> res == Ok
    ensures res != Ok ==> db.State() == old(db.State())
    ensures res == Ok ==>
      && file.Some? && paymentId.Some? && PaymentIndex(old(db.payments), paymentId.value).Some?
      && var i := PaymentIndex(old(db.payments), paymentId.value).value;
         db.State() == old(db.State()).(payments := old(db.payments)[i := old(db.payments)[i].(evidence := file)])
  {
    if file.None? {
      return BadRequest;
    }
    if paymentId.None? {
      return NotFound;
    }
    var found := PaymentIndex(db.payments, paymentId.value);
    if found.None? {
      return NotFound;
    }
    var i := found.value;
    ValidAfterPaymentWrite(db.State(), i, db.payments[i].(evidence := file));
    db.payments := db.payments[i := db.payments[i].(evidence := file)];
    res := Ok;
  }

  // ---- confirmPayment and rejectPayment ----

  /** The admin's decision on a payment. */
  datatype Verdict = Confirm | Reject

  /** confirmed / rejected */
  function PaymentStatusFor(v: Verdict): PaymentStatus {
    match v
    case Confirm => PaymentConfirmed
    case Reject => PaymentRejected
  }

  /** completed / failed */
  function EntryStatusFor(v: Verdict): TxStatus {
    match v
    case Confirm => TxCompleted
    case Reject => TxFailed
  }

  /** confirmPayment (Confirm) and rejectPayment (Reject): for an admin and a
      known payment, the payment takes the verdict's status and its first
      ledger entry, which is its payment-type entry, the matching entry
      status; the earlier status of either is not consulted. On a consistent
      store the entry always exists, so the 500 path of the source (a missing
      entry, after the payment was saved) is never taken. */
  method SettlePayment(db: Database, caller: Caller, id: Id, v: Verdict) returns (res: Response)
    requires db.Valid()
    modifies db
    ensures db.Valid()
    ensures !caller.isAdmin ==> res == Forbidden && db.State() == old(db.State())
    ensures caller.isAdmin && PaymentIndex(old(db.payments), id).None? ==>
      res == NotFound && db.State() == old(db.State())
    ensures caller.isAdmin && PaymentIndex(old(db.payments), id).Some? ==>
      var i := PaymentIndex(old(db.payments), id).value;
      var j := PaymentEntryOf(old(db.transactions), id);
      && res == Ok && j.Some?
      && db.State() == old(db.State()).(
           payments := old(db.payments)[i := old(db.payments)[i].(status := PaymentStatusFor(v))],
           transactions := old(db.transactions)[j.value := old(db.transactions)[j.value].(status := EntryStatusFor(v))])
  {
    if !caller.isAdmin {
      return Forbidden;
    }
    var found := PaymentIndex(db.payments, id);
    if found.None? {
      return NotFound;
    }
    var i := found.value;
    assert PaymentEntryOf(db.transactions, db.payments[i].id).Some?;
    FirstEntryIsPaymentEntry(db.transactions, id);
    ghost var s0 := db.State();
    ghost var s1 := s0.(payments := s0.payments[i := s0.payments[i].(status := PaymentStatusFor(v))]);
    ValidAfterPaymentWrite(s0, i, s1.payments[i]);
    db.payments := db.payments[i := db.payments[i].(status := PaymentStatusFor(v))];
    assert db.State() == s1;
    // Transaction.findOne({ paymentId }); a null result makes the status write throw.
    var entry := TransactionOfPayment(db.transactions, id);
    if entry.None? {
      return ServerError;
    }
    var j := entry.value;
    ValidAfterTransactionStatus(s1, j, EntryStatusFor(v));
    db.transactions := db.transactions[j := db.transactions[j].(status := EntryStatusFor(v))];
    assert db.State() == s1.(transactions := s1.transactions[j := s1.transactions[j].(status := EntryStatusFor(v))]);
    res := Ok;
  }

  // ---- issueRefund and the refund half of handleRefundRequest ----

  /** The refund-type entry both refund paths write: the payment's owner and
      amount, status refunded, no checkout. */
  function RefundEntry(id: Id, p: Payment): (t: Transaction)
    ensures t.kind == RefundTx && t.status == TxRefunded && Mirrors(t, p)
  {
    Transaction(id, p.id, p.userId, None, p.amount, TxRefunded, RefundTx)
  }

  /** The store after a refund of payment `p` whose original entry is `j`:
      the refund entry is appended, then entry `j` is marked refunded. */
  function WithRefund(s: DbState, p: Payment, j: nat): DbState
    requires j < |s.transactions|
  {
    var ts := s.transactions + [RefundEntry(s.nextId, p)];
    s.(transactions := ts[j := ts[j].(status := TxRefunded)], nextId := s.nextId + 1)
  }

  /** A refund keeps the store's invariants. */
  lemma ValidAfterRefund(s: DbState, i: nat, j: nat)
    requires ValidState(s)
    requires i < |s.payments| && j < |s.transactions|
    requires PaymentIndex(s.payments, s.payments[i].id) == Some(i)
    ensures ValidState(WithRefund(s, s.payments[i], j))
  {
    var p := s.payments[i];
    var r := RefundEntry(s.nextId, p);
    assert MirrorsItsPayment(r, s.payments);
    assert PaymentEntryOf(s.transactions, p.id).Some?;
    ValidAfterAppendTransaction(s, r);
    var s1 := s.(transactions := s.transactions + [r]);
    ValidAfterTransactionStatus(s1, j, TxRefunded);
    ValidAfterFreshId(s1.(transactions := s1.transactions[j := s1.transactions[j].(status := TxRefunded)]), s.nextId + 1);
  }

  /** On the report, a refund lowers the net amount by the payment's amount
      and adds one refund, whichever entry was marked. */
  lemma RefundOnReport(s: DbState, p: Payment, j: nat)
    requires j < |s.transactions|
    ensures BuildReport(WithRefund(s, p, j).transactions).totalAmount == BuildReport(s.transactions).totalAmount - p.amount
    ensures BuildReport(WithRefund(s, p, j).transactions).totalPayments == BuildReport(s.transactions).totalPayments
    ensures BuildReport(WithRefund(s, p, j).transactions).totalRefunds == BuildReport(s.transactions).totalRefunds + 1
  {
    var ts := s.transactions;
    var r := RefundEntry(s.nextId, p);
    assert (ts + [r])[j := (ts + [r])[j].(status := TxRefunded)] == ts[j := ts[j].(status := TxRefunded)] + [r];
    RefundLowersNetAmount(ts, j, r);
  }

  /** Only a confirmed payment can be refunded by an admin (BadRequest
      otherwise, without a write). A refund appends the refund entry and marks
      the payment's payment-type entry refunded; the payment itself stays
      confirmed. On a consistent store that entry exists, so the 500 path of
      the source is never taken. */
  method IssueRefund(db: Database, caller: Caller, id: Id) returns (res: Response, refund: Option<Transaction>)
    requires db.Valid()
    modifies db
    ensures db.Valid()
    ensures !caller.isAdmin ==> res == Forbidden
    ensures caller.isAdmin
      && (PaymentIndex(old(db.payments), id).None? || old(db.payments)[PaymentIndex(old(db.payments), id).value].status != PaymentConfirmed)
      ==> res == BadRequest
    ensures caller.isAdmin && PaymentIndex(old(db.payments), id).Some?
      && old(db.payments)[PaymentIndex(old(db.payments), id).value].status == PaymentConfirmed
      ==> res == Ok
    ensures res != Ok ==> db.State() == old(db.State()) && refund.None?
    ensures res == Ok ==>
      && caller.isAdmin && PaymentIndex(old(db.payments), id).Some?
      && var p := old(db.payments)[PaymentIndex(old(db.payments), id).value];
         var j := PaymentEntryOf(old(db.transactions), id);
         && p.status == PaymentConfirmed && j.Some?
         && refund == Some(RefundEntry(old(db.nextId), p))
         && db.State() == WithRefund(old(db.State()), p, j.value)
         && BuildReport(db.transactions).totalAmount == BuildReport(old(db.transactions)).totalAmount - p.amount
  {
    refund := None;
    if !caller.isAdmin {
      return Forbidden, None;
    }
    var found := PaymentIndex(db.payments, id);
    if found.None? || db.payments[found.value].status != PaymentConfirmed {
      return BadRequest, None;
    }
    var p := db.payments[found.value];
    assert PaymentEntryOf(db.transactions, p.id).Some?;
    var j0 := PaymentEntryOf(db.transactions, id).value;
    ghost var target := WithRefund(db.State(), p, j0);
    ValidAfterRefund(db.State(), found.value, j0);
    RefundOnReport(db.State(), p, j0);
    var r := RefundEntry(db.nextId, p);
    FindFirstAppend(db.transactions, r, (t: Transaction) => t.paymentId == id && t.kind == PaymentTx);
    db.transactions, db.nextId := db.transactions + [r], db.nextId + 1;
    // Transaction.findOne({ paymentId, type: "payment" }); null would throw.
    var entry := PaymentEntryOf(db.transactions, id);
    if entry.None? {
      return ServerError, None;
    }
    var j := entry.value;
    db.transactions := db.transactions[j := db.transactions[j].(status := TxRefunded)];
    assert db.State() == target;
    res, refund := Ok, Some(r);
  }

  // ---- getTransactionReport ----

  /** The report over every stored transaction, for admins only. */
  method GetTransactionReport(db: Database, caller: Caller) returns (res: Response, report: Option<Report>)
    ensures !caller.isAdmin ==> res == Forbidden && report.None?
    ensures caller.isAdmin ==> res == Ok && report == Some(BuildReport(db.transactions))
    ensures report.Some? ==>
      && report.value.totalPayments + report.value.totalRefunds == |db.transactions|
      && report.value.totalAmount == SumOfKind(db.transactions, PaymentTx) - SumOfKind(db.transactions, RefundTx)
  {
    if !caller.isAdmin {
      return Forbidden, None;
    }
    res, report := Ok, Some(BuildReport(db.transactions));
  }

  // ---- The refund-request workflow ----

  /** A user's request to refund a completed transaction. The route carries
      no authentication: the owner comes from the body as sent. Missing
      transaction gives NotFound; a transaction that is not completed, or one
      that already has a pending request, gives BadRequest; a missing owner or
      reason fails the schema on save (ServerError). None of these writes. */
  method CreateRefundRequest(db: Database, transactionId: Option<Id>, reason: string, userId: Option<Id>)
    returns (res: Response)
    requires db.Valid()
    modifies db
    ensures db.Valid()
    ensures transactionId.None? || TransactionIndex(old(db.transactions), transactionId.value).None? ==> res == NotFound
    ensures transactionId.Some? && TransactionIndex(old(db.transactions), transactionId.value).Some? ==>
      var t := old(db.transactions)[TransactionIndex(old(db.transactions), transactionId.value).value];
      var pending := PendingRequestFor(old(db.refundRequests), transactionId.value);
      && (t.status != TxCompleted ==> res == BadRequest)
      && (t.status == TxCompleted && pending.Some? ==> res == BadRequest)
      && (t.status == TxCompleted && pending.None? && (userId.None? || reason == "") ==> res == ServerError)
      && (t.status == TxCompleted && pending.None? && userId.Some? && reason != "" ==> res == Created)
    ensures res != Created ==> db.State() == old(db.State())
    ensures res == Created ==>
      && transactionId.Some? && userId.Some?
      && db.State() == old(db.State()).(
           refundRequests := old(db.refundRequests)
             + [RefundRequest(old(db.nextId), transactionId.value, userId.value, reason, RefundPending)],
           nextId := old(db.nextId) + 1)
  {
    if transactionId.None? {
      return NotFound;
    }
    var tid := transactionId.value;
    var found := TransactionIndex(db.transactions, tid);
    if found.None? {
      return NotFound;
    }
    if db.transactions[found.value].status != TxCompleted {
      return BadRequest;
    }
    var existing := PendingRequestFor(db.refundRequests, tid);
    if existing.Some? {
      return BadRequest;
    }
    if userId.None? || reason == "" {
      return ServerError;
    }
    var r := RefundRequest(db.nextId, tid, userId.value, reason, RefundPending);
    ValidAfterAppendRequest(db.State(), r);
    ValidAfterFreshId(db.State().(refundRequests := db.refundRequests + [r]), db.nextId + 1);
    db.refundRequests, db.nextId := db.refundRequests + [r], db.nextId + 1;
    res := Created;
  }

  /** An admin may withdraw a pending request; only that request is removed.
      A missing request gives NotFound and a processed one BadRequest. */
  method DeleteRefundRequest(db: Database, caller: Caller, id: Id) returns (res: Response)
    requires db.Valid()
    modifies db
    ensures db.Valid()
    ensures !caller.isAdmin ==> res == Forbidden
    ensures caller.isAdmin && RefundRequestIndex(old(db.refundRequests), id).None? ==> res == NotFound
    ensures caller.isAdmin && RefundRequestIndex(old(db.refundRequests), id).Some? ==>
      var i := RefundRequestIndex(old(db.refundRequests), id).value;
      && (old(db.refundRequests)[i].status != RefundPending ==> res == BadRequest)
      && (old(db.refundRequests)[i].status == RefundPending ==>
            res == Ok && db.State() == old(db.State()).(refundRequests := RemoveAt(old(db.refundRequests), i)))
    ensures res != Ok ==> db.State() == old(db.State())
  {
    if !caller.isAdmin {
      return Forbidden;
    }
    var found := RefundRequestIndex(db.refundRequests, id);
    if found.None? {
      return NotFound;
    }
    if db.refundRequests[found.value].status != RefundPending {
      return BadRequest;
    }
    // RefundRequest.deleteOne({ _id }) removes the document found above.
    ValidAfterRemoveRequest(db.State(), found.value);
    db.refundRequests := RemoveAt(db.refundRequests, found.value);
    res := Ok;
  }

  /** `action === "approve" ? "approved" : "rejected"` */
  function DecisionFor(action: string): (st: RefundStatus)
    ensures st == RefundApproved <==> action == "approve"
    ensures st != RefundPending
  {
    if action == "approve" then RefundApproved else RefundRejected
  }

  /** Whether handleRefundRequest may refund a payment in this status. */
  predicate Refundable(st: PaymentStatus) {
    st == PaymentConfirmed || st == PaymentPending
  }

  /** An admin's decision on a pending request. The decision is saved first;
      an approval then refunds the payment of the requested transaction when
      that payment is confirmed or pending (appending the refund entry and
      marking the requested transaction refunded) and otherwise answers
      BadRequest with the approval already saved and no refund written. On a
      consistent store the requested transaction and its payment exist, so
      the source's NotFound and 500 paths after the save are never taken. */
  method HandleRefundRequest(db: Database, caller: Caller, requestId: Option<Id>, action: string)
    returns (res: Response)
    requires db.Valid()
    modifies db
    ensures db.Valid()
    ensures !caller.isAdmin ==> res == Forbidden && db.State() == old(db.State())
    ensures caller.isAdmin && (requestId.None? || RefundRequestIndex(old(db.refundRequests), requestId.value).None?) ==>
      res == NotFound && db.State() == old(db.State())
    ensures caller.isAdmin && requestId.Some? && RefundRequestIndex(old(db.refundRequests), requestId.value).Some? ==>
      var i := RefundRequestIndex(old(db.refundRequests), requestId.value).value;
      var r := old(db.refundRequests)[i];
      var decided := old(db.State()).(refundRequests := old(db.refundRequests)[i := r.(status := DecisionFor(action))]);
      && (r.status != RefundPending ==> res == BadRequest && db.State() == old(db.State()))
      && (r.status == RefundPending && action != "approve" ==> res == Ok && db.State() == decided)
      && (r.status == RefundPending && action == "approve" ==>
            var j := TransactionIndex(old(db.transactions), r.transactionId);
            && j.Some?
            && var k := PaymentIndex(old(db.payments), old(db.transactions)[j.value].paymentId);
               && k.Some?
               && var p := old(db.payments)[k.value];
                  && (!Refundable(p.status) ==> res == BadRequest && db.State() == decided)
                  && (Refundable(p.status) ==> res == Ok && db.State() == WithRefund(decided, p, j.value)))
  {
    if !caller.isAdmin {
      return Forbidden;
    }
    if requestId.None? {
      return NotFound;
    }
    var found := RefundRequestIndex(db.refundRequests, requestId.value);
    if found.None? {
      return NotFound;
    }
    var i := found.value;
    if db.refundRequests[i].status != RefundPending {
      return BadRequest;
    }
    var decision := DecisionFor(action);
    ValidAfterRequestStatus(db.State(), i, decision);
    db.refundRequests := db.refundRequests[i := db.refundRequests[i].(status := decision)];
    if action == "approve" {
      var tx := TransactionIndex(db.transactions, db.refundRequests[i].transactionId);
      if tx.None? {
        return NotFound;
      }
      var j := tx.value;
      // populate("paymentId"): a dangling reference reads as null and the
      // status test below throws.
      assert MirrorsItsPayment(db.transactions[j], db.payments);
      var pay := PaymentIndex(db.payments, db.transactions[j].paymentId);
      if pay.None? {
        return ServerError;
      }
      var p := db.payments[pay.value];
      if !Refundable(p.status) {
        return BadRequest;
      }
      ghost var target := WithRefund(db.State(), p, j);
      ValidAfterRefund(db.State(), pay.value, j);
      var refund := RefundEntry(db.nextId, p);
      db.transactions, db.nextId := db.transactions + [refund], db.nextId + 1;
      db.transactions := db.transactions[j := db.transactions[j].(status := TxRefunded)];
      assert db.State() == target;
    }
    res := Ok;
  }
}
