/** The document store the handlers share: one collection per record type, each
    kept in natural (insertion) order, plus the source of fresh identifiers.
    `Valid()` collects the cross-record invariants every handler preserves. */
module Store {
  import opened Common
  import opened Records

  // ---- Lookups: each names one query the handlers send ----

  /** Payment.findById(id). */
  function PaymentIndex(ps: seq<Payment>, id: Id): Option<nat> {
    FindFirst(ps, (p: Payment) => p.id == id)
  }

  /** Transaction.findById(id). */
  function TransactionIndex(ts: seq<Transaction>, id: Id): Option<nat> {
    FindFirst(ts, (t: Transaction) => t.id == id)
  }

  /** Transaction.findOne({ paymentId }): the first entry of either kind. */
  function TransactionOfPayment(ts: seq<Transaction>, paymentId: Id): Option<nat> {
    FindFirst(ts, (t: Transaction) => t.paymentId == paymentId)
  }

  /** Transaction.findOne({ paymentId, type: "payment" }). */
  function PaymentEntryOf(ts: seq<Transaction>, paymentId: Id): Option<nat> {
    FindFirst(ts, (t: Transaction) => t.paymentId == paymentId && t.kind == PaymentTx)
  }

  /** RefundRequest.findById(id). */
  function RefundRequestIndex(rs: seq<RefundRequest>, id: Id): Option<nat> {
    FindFirst(rs, (r: RefundRequest) => r.id == id)
  }

  /** RefundRequest.findOne({ transactionId, status: "pending" }). */
  function PendingRequestFor(rs: seq<RefundRequest>, transactionId: Id): Option<nat> {
    FindFirst(rs, (r: RefundRequest) => r.transactionId == transactionId && r.status == RefundPending)
  }

  /** Checkout.findById(id), or findOne({ _id }). */
  function CheckoutIndex(cs: seq<Checkout>, id: Id): Option<nat> {
    FindFirst(cs, (c: Checkout) => c.id == id)
  }

  /** Checkout.findOne({ _id, userId }). */
  function OwnCheckoutIndex(cs: seq<Checkout>, id: Id, userId: Id): Option<nat> {
    FindFirst(cs, (c: Checkout) => c.id == id && c.userId == userId)
  }

  /** Product.findById(id). */
  function ProductIndex(ps: seq<Product>, id: Id): Option<nat> {
    FindFirst(ps, (p: Product) => p.id == id)
  }

  /** Cart.findOne({ _id, user }). */
  function CartRowIndex(cs: seq<CartRow>, id: Id, user: Id): Option<nat> {
    FindFirst(cs, (r: CartRow) => r.id == id && r.user == user)
  }

  /** Cart.deleteOne({ user, product }) deletes this row. */
  function CartRowFor(cs: seq<CartRow>, user: Id, product: Id): Option<nat> {
    FindFirst(cs, (r: CartRow) => r.user == user && r.product == product)
  }

  // ---- Cross-record invariants ----

  /** At most one pending refund request exists per transaction. */
  ghost predicate AtMostOnePendingPerTransaction(rs: seq<RefundRequest>) {
    forall i, j :: 0 <= i < j < |rs| && rs[i].status == RefundPending && rs[j].status == RefundPending
      ==> rs[i].transactionId != rs[j].transactionId
  }

  /** A ledger entry mirrors its payment: same payment, owner and amount, and
      a payment entry also names the payment's checkout. */
  ghost predicate Mirrors(t: Transaction, p: Payment) {
    && t.paymentId == p.id
    && t.userId == p.userId
    && t.amount == p.amount
    && (t.kind == PaymentTx ==> t.checkoutId == Some(p.checkoutId))
  }

  /** The payment a ledger entry references (what `populate("paymentId")`
      loads) exists, and the entry mirrors it. */
  ghost predicate MirrorsItsPayment(t: Transaction, ps: seq<Payment>) {
    var j := PaymentIndex(ps, t.paymentId);
    j.Some? && Mirrors(t, ps[j.value])
  }

  /** Every transaction, of either kind, mirrors the payment it references. */
  ghost predicate TransactionsMirrorPayments(ts: seq<Transaction>, ps: seq<Payment>) {
    forall i {:trigger MirrorsItsPayment(ts[i], ps)} :: 0 <= i < |ts| ==> MirrorsItsPayment(ts[i], ps)
  }

  /** Every payment has its payment-type ledger entry (written in the same
      session as the payment itself). */
  ghost predicate PaymentsHaveEntries(ps: seq<Payment>, ts: seq<Transaction>) {
    forall i {:trigger PaymentEntryOf(ts, ps[i].id)} :: 0 <= i < |ps| ==> PaymentEntryOf(ts, ps[i].id).Some?
  }

  /** Every refund request names a stored transaction. */
  ghost predicate RequestsReferenceTransactions(rs: seq<RefundRequest>, ts: seq<Transaction>) {
    forall i {:trigger TransactionIndex(ts, rs[i].transactionId)} :: 0 <= i < |rs| ==> TransactionIndex(ts, rs[i].transactionId).Some?
  }

  /** The links between payments, the ledger and refund requests. */
  ghost predicate LedgerConsistent(ps: seq<Payment>, ts: seq<Transaction>, rs: seq<RefundRequest>) {
    && TransactionsMirrorPayments(ts, ps)
    && PaymentsHaveEntries(ps, ts)
    && RequestsReferenceTransactions(rs, ts)
  }

  /** A refund entry is only ever written after its payment's payment-type
      entry, so the first entry of a payment is its payment-type entry. */
  ghost predicate EntriesPrecedeRefunds(ts: seq<Transaction>) {
    forall i {:trigger PaymentEntryOf(ts[..i], ts[i].paymentId)} :: 0 <= i < |ts| && ts[i].kind == RefundTx ==> PaymentEntryOf(ts[..i], ts[i].paymentId).Some?
  }

  ghost predicate PaymentIdsBelow(ps: seq<Payment>, bound: nat) {
    forall i :: 0 <= i < |ps| ==> ps[i].id < bound
  }

  ghost predicate ProductIdsBelow(ps: seq<Product>, bound: nat) {
    forall i :: 0 <= i < |ps| ==> ps[i].id < bound
  }

  ghost predicate CartIdsBelow(cs: seq<CartRow>, bound: nat) {
    forall i :: 0 <= i < |cs| ==> cs[i].id < bound
  }

  /** No two products share an identifier. */
  ghost predicate UniqueProductIds(ps: seq<Product>) {
    forall i, j :: 0 <= i < j < |ps| ==> ps[i].id != ps[j].id
  }

  /** No two cart rows share an identifier. */
  ghost predicate UniqueCartIds(cs: seq<CartRow>) {
    forall i, j :: 0 <= i < j < |cs| ==> cs[i].id != cs[j].id
  }

  /** Every stored checkout status is one the handlers accept. */
  ghost predicate CheckoutStatusesAllowed(cs: seq<Checkout>) {
    forall i :: 0 <= i < |cs| ==> cs[i].status in CheckoutStatuses
  }

  /** The whole content of the store at one moment. */
  datatype DbState = DbState(
    payments: seq<Payment>,
    transactions: seq<Transaction>,
    refundRequests: seq<RefundRequest>,
    checkouts: seq<Checkout>,
    carts: seq<CartRow>,
    products: seq<Product>,
    nextId: nat)

  /** The invariants every handler preserves. */
  ghost predicate ValidState(s: DbState) {
    && LedgerConsistent(s.payments, s.transactions, s.refundRequests)
    && AtMostOnePendingPerTransaction(s.refundRequests)
    && EntriesPrecedeRefunds(s.transactions)
    && PaymentIdsBelow(s.payments, s.nextId)
    && ProductIdsBelow(s.products, s.nextId)
    && UniqueProductIds(s.products)
    && CartIdsBelow(s.carts, s.nextId)
    && UniqueCartIds(s.carts)
    && CheckoutStatusesAllowed(s.checkouts)
  }

  class Database {
    var payments: seq<Payment>
    var transactions: seq<Transaction>
    var refundRequests: seq<RefundRequest>
    var checkouts: seq<Checkout>
    var carts: seq<CartRow>
    var products: seq<Product>
    /** The next fresh identifier; every stored payment, product and cart id is below it. */
    var nextId: nat

    ghost predicate Valid()
      reads this
    {
      ValidState(State())
    }

    function State(): DbState
      reads this
    {
      DbState(payments, transactions, refundRequests, checkouts, carts, products, nextId)
    }

    constructor ()
      ensures Valid()
      ensures State() == DbState([], [], [], [], [], [], 0)
    {
      payments, transactions, refundRequests := [], [], [];
      checkouts, carts, products := [], [], [];
      nextId := 0;
    }
  }

  // ---- How the invariants survive the handlers' writes ----

  /** A new ledger entry that mirrors its payment keeps the ledger consistent. */
  lemma LedgerAfterAppendTransaction(ps: seq<Payment>, ts: seq<Transaction>, rs: seq<RefundRequest>, t: Transaction)
    requires LedgerConsistent(ps, ts, rs)
    requires MirrorsItsPayment(t, ps)
    ensures LedgerConsistent(ps, ts + [t], rs)
  {
    MirrorAfterAppendTransaction(ts, ps, t);
    EntriesAfterAppendTransaction(ps, ts, t);
    ReferencesAfterAppendTransaction(rs, ts, t);
  }

  lemma MirrorAfterAppendTransaction(ts: seq<Transaction>, ps: seq<Payment>, t: Transaction)
    requires TransactionsMirrorPayments(ts, ps)
    requires MirrorsItsPayment(t, ps)
    ensures TransactionsMirrorPayments(ts + [t], ps)
  {
    assert forall i :: 0 <= i < |ts| ==> (ts + [t])[i] == ts[i];
  }

  lemma EntriesAfterAppendTransaction(ps: seq<Payment>, ts: seq<Transaction>, t: Transaction)
    requires PaymentsHaveEntries(ps, ts)
    ensures PaymentsHaveEntries(ps, ts + [t])
  {
    forall k | 0 <= k < |ps|
      ensures PaymentEntryOf(ts + [t], ps[k].id).Some?
    {
      assert PaymentEntryOf(ts, ps[k].id).Some?;
      FindFirstAppend(ts, t, (x: Transaction) => x.paymentId == ps[k].id && x.kind == PaymentTx);
    }
  }

  lemma ReferencesAfterAppendTransaction(rs: seq<RefundRequest>, ts: seq<Transaction>, t: Transaction)
    requires RequestsReferenceTransactions(rs, ts)
    ensures RequestsReferenceTransactions(rs, ts + [t])
  {
    forall k | 0 <= k < |rs|
      ensures TransactionIndex(ts + [t], rs[k].transactionId).Some?
    {
      assert TransactionIndex(ts, rs[k].transactionId).Some?;
      FindFirstAppend(ts, t, (x: Transaction) => x.id == rs[k].transactionId);
    }
  }

  /** Writing a ledger entry's status keeps the ledger consistent. */
  lemma LedgerAfterTransactionStatus(ps: seq<Payment>, ts: seq<Transaction>, rs: seq<RefundRequest>, i: nat, st: TxStatus)
    requires LedgerConsistent(ps, ts, rs)
    requires i < |ts|
    ensures LedgerConsistent(ps, ts[i := ts[i].(status := st)], rs)
  {
    var ts' := ts[i := ts[i].(status := st)];
    assert MirrorsItsPayment(ts[i], ps);
    forall k | 0 <= k < |ps|
      ensures PaymentEntryOf(ts', ps[k].id).Some?
    {
      assert PaymentEntryOf(ts, ps[k].id).Some?;
      FindFirstPointwise(ts, ts', (x: Transaction) => x.paymentId == ps[k].id && x.kind == PaymentTx);
    }
    forall k | 0 <= k < |rs|
      ensures TransactionIndex(ts', rs[k].transactionId).Some?
    {
      assert TransactionIndex(ts, rs[k].transactionId).Some?;
      FindFirstPointwise(ts, ts', (x: Transaction) => x.id == rs[k].transactionId);
    }
  }

  /** A payment write that keeps its id, owner, amount and checkout keeps the
      ledger consistent. */
  lemma LedgerAfterPaymentChange(ps: seq<Payment>, ts: seq<Transaction>, rs: seq<RefundRequest>, i: nat, p: Payment)
    requires LedgerConsistent(ps, ts, rs)
    requires i < |ps|
    requires p.id == ps[i].id && p.userId == ps[i].userId
    requires p.amount == ps[i].amount && p.checkoutId == ps[i].checkoutId
    ensures LedgerConsistent(ps[i := p], ts, rs)
  {
    MirrorAfterPaymentChange(ts, ps, i, p);
    EntriesAfterPaymentChange(ps, ts, i, p);
  }

  lemma MirrorAfterPaymentChange(ts: seq<Transaction>, ps: seq<Payment>, i: nat, p: Payment)
    requires TransactionsMirrorPayments(ts, ps)
    requires i < |ps|
    requires p.id == ps[i].id && p.userId == ps[i].userId
    requires p.amount == ps[i].amount && p.checkoutId == ps[i].checkoutId
    ensures TransactionsMirrorPayments(ts, ps[i := p])
  {
    var ps' := ps[i := p];
    forall k | 0 <= k < |ts|
      ensures MirrorsItsPayment(ts[k], ps')
    {
      assert MirrorsItsPayment(ts[k], ps);
      FindFirstPointwise(ps, ps', (q: Payment) => q.id == ts[k].paymentId);
    }
  }

  lemma EntriesAfterPaymentChange(ps: seq<Payment>, ts: seq<Transaction>, i: nat, p: Payment)
    requires PaymentsHaveEntries(ps, ts)
    requires i < |ps| && p.id == ps[i].id
    ensures PaymentsHaveEntries(ps[i := p], ts)
  {
    var ps' := ps[i := p];
    forall k | 0 <= k < |ps'|
      ensures PaymentEntryOf(ts, ps'[k].id).Some?
    {
      assert ps'[k].id == ps[k].id;
    }
  }

  /** A fresh payment stored together with its payment-type entry keeps the
      ledger consistent. */
  lemma LedgerAfterNewPayment(ps: seq<Payment>, ts: seq<Transaction>, rs: seq<RefundRequest>, p: Payment, t: Transaction)
    requires LedgerConsistent(ps, ts, rs)
    requires forall k :: 0 <= k < |ps| ==> ps[k].id != p.id
    requires t.kind == PaymentTx && Mirrors(t, p)
    ensures LedgerConsistent(ps + [p], ts + [t], rs)
  {
    MirrorAfterAppendPayment(ts, ps, p);
    FindFirstAppend(ps, p, (q: Payment) => q.id == p.id);
    assert MirrorsItsPayment(t, ps + [p]);
    MirrorAfterAppendTransaction(ts, ps + [p], t);
    EntriesAfterAppendTransaction(ps, ts, t);
    EntriesAfterNewPayment(ps, ts + [t], p, t);
    ReferencesAfterAppendTransaction(rs, ts, t);
  }

  lemma MirrorAfterAppendPayment(ts: seq<Transaction>, ps: seq<Payment>, p: Payment)
    requires TransactionsMirrorPayments(ts, ps)
    ensures TransactionsMirrorPayments(ts, ps + [p])
  {
    forall k | 0 <= k < |ts|
      ensures MirrorsItsPayment(ts[k], ps + [p])
    {
      assert MirrorsItsPayment(ts[k], ps);
      FindFirstAppend(ps, p, (q: Payment) => q.id == ts[k].paymentId);
    }
  }

  lemma EntriesAfterNewPayment(ps: seq<Payment>, ts: seq<Transaction>, p: Payment, t: Transaction)
    requires PaymentsHaveEntries(ps, ts)
    requires t in ts && t.kind == PaymentTx && t.paymentId == p.id
    ensures PaymentsHaveEntries(ps + [p], ts)
  {
    var ps' := ps + [p];
    forall k | 0 <= k < |ps'|
      ensures PaymentEntryOf(ts, ps'[k].id).Some?
    {
      if k == |ps| {
        var j :| 0 <= j < |ts| && ts[j] == t;
        assert ((x: Transaction) => x.paymentId == p.id && x.kind == PaymentTx)(ts[j]);
      } else {
        assert ps'[k] == ps[k];
      }
    }
  }

  /** A new refund request keeps both request invariants when it names a stored
      transaction and, if pending, no pending request for it exists yet. */
  lemma RequestsAfterAppend(ps: seq<Payment>, ts: seq<Transaction>, rs: seq<RefundRequest>, r: RefundRequest)
    requires LedgerConsistent(ps, ts, rs) && AtMostOnePendingPerTransaction(rs)
    requires TransactionIndex(ts, r.transactionId).Some?
    requires r.status == RefundPending ==> PendingRequestFor(rs, r.transactionId).None?
    ensures LedgerConsistent(ps, ts, rs + [r]) && AtMostOnePendingPerTransaction(rs + [r])
  {
    ReferencesAfterAppendRequest(rs, ts, r);
    PendingAfterAppendRequest(rs, r);
  }

  lemma ReferencesAfterAppendRequest(rs: seq<RefundRequest>, ts: seq<Transaction>, r: RefundRequest)
    requires RequestsReferenceTransactions(rs, ts)
    requires TransactionIndex(ts, r.transactionId).Some?
    ensures RequestsReferenceTransactions(rs + [r], ts)
  {
    assert forall k :: 0 <= k < |rs| ==> (rs + [r])[k] == rs[k];
  }

  lemma PendingAfterAppendRequest(rs: seq<RefundRequest>, r: RefundRequest)
    requires AtMostOnePendingPerTransaction(rs)
    requires r.status == RefundPending ==> PendingRequestFor(rs, r.transactionId).None?
    ensures AtMostOnePendingPerTransaction(rs + [r])
  {
    var rs' := rs + [r];
    forall i, j | 0 <= i < j < |rs'| && rs'[i].status == RefundPending && rs'[j].status == RefundPending
      ensures rs'[i].transactionId != rs'[j].transactionId
    {
      if j == |rs| {
        assert rs'[i] == rs[i];
        assert !((x: RefundRequest) => x.transactionId == r.transactionId && x.status == RefundPending)(rs[i]);
      } else {
        assert rs'[i] == rs[i] && rs'[j] == rs[j];
      }
    }
  }

  /** Taking a request out of the pending state keeps both request invariants. */
  lemma RequestsAfterStatus(ps: seq<Payment>, ts: seq<Transaction>, rs: seq<RefundRequest>, i: nat, st: RefundStatus)
    requires LedgerConsistent(ps, ts, rs) && AtMostOnePendingPerTransaction(rs)
    requires i < |rs| && st != RefundPending
    ensures LedgerConsistent(ps, ts, rs[i := rs[i].(status := st)])
    ensures AtMostOnePendingPerTransaction(rs[i := rs[i].(status := st)])
  {
  }

  /** Deleting a request keeps both request invariants. */
  lemma RequestsAfterRemove(ps: seq<Payment>, ts: seq<Transaction>, rs: seq<RefundRequest>, i: nat)
    requires LedgerConsistent(ps, ts, rs) && AtMostOnePendingPerTransaction(rs)
    requires i < |rs|
    ensures LedgerConsistent(ps, ts, RemoveAt(rs, i)) && AtMostOnePendingPerTransaction(RemoveAt(rs, i))
  {
    var rs' := RemoveAt(rs, i);
    forall a, b | 0 <= a < b < |rs'| && rs'[a].status == RefundPending && rs'[b].status == RefundPending
      ensures rs'[a].transactionId != rs'[b].transactionId
    {
      var a0 := if a < i then a else a + 1;
      var b0 := if b < i then b else b + 1;
      assert rs'[a] == rs[a0] && rs'[b] == rs[b0];
    }
  }

  lemma RefundsAfterAppendTransaction(ts: seq<Transaction>, t: Transaction)
    requires EntriesPrecedeRefunds(ts)
    requires t.kind == RefundTx ==> PaymentEntryOf(ts, t.paymentId).Some?
    ensures EntriesPrecedeRefunds(ts + [t])
  {
    var ts' := ts + [t];
    assert ts'[..|ts|] == ts;
    forall i | 0 <= i < |ts|
      ensures ts'[..i] == ts[..i]
    {
    }
  }

  lemma RefundsAfterTransactionStatus(ts: seq<Transaction>, i: nat, st: TxStatus)
    requires EntriesPrecedeRefunds(ts)
    requires i < |ts|
    ensures EntriesPrecedeRefunds(ts[i := ts[i].(status := st)])
  {
    var ts' := ts[i := ts[i].(status := st)];
    forall m | 0 <= m < |ts'| && ts'[m].kind == RefundTx
      ensures PaymentEntryOf(ts'[..m], ts'[m].paymentId).Some?
    {
      assert ts[m].kind == RefundTx && ts'[m].paymentId == ts[m].paymentId;
      assert PaymentEntryOf(ts[..m], ts[m].paymentId).Some?;
      FindFirstPointwise(ts[..m], ts'[..m], (x: Transaction) => x.paymentId == ts[m].paymentId && x.kind == PaymentTx);
    }
  }

  /** The first ledger entry of a payment, which `findOne({ paymentId })`
      returns, is its payment-type entry. */
  lemma FirstEntryIsPaymentEntry(ts: seq<Transaction>, paymentId: Id)
    requires EntriesPrecedeRefunds(ts)
    ensures TransactionOfPayment(ts, paymentId) == PaymentEntryOf(ts, paymentId)
  {
    match TransactionOfPayment(ts, paymentId)
    case None =>
    case Some(i) =>
      ghost var earlier := PaymentEntryOf(ts[..i], ts[i].paymentId);
      assert ts[i].kind == PaymentTx;
      FindFirstIs(ts, (x: Transaction) => x.paymentId == paymentId && x.kind == PaymentTx, i);
  }

  /** Deleting a cart row keeps the cart invariants. */
  lemma CartsAfterRemove(cs: seq<CartRow>, i: nat, bound: nat)
    requires CartIdsBelow(cs, bound) && UniqueCartIds(cs)
    requires i < |cs|
    ensures CartIdsBelow(RemoveAt(cs, i), bound) && UniqueCartIds(RemoveAt(cs, i))
  {
    var cs' := RemoveAt(cs, i);
    forall a, b | 0 <= a < b < |cs'|
      ensures cs'[a].id != cs'[b].id
    {
      var a0 := if a < i then a else a + 1;
      var b0 := if b < i then b else b + 1;
      assert cs'[a] == cs[a0] && cs'[b] == cs[b0];
    }
  }

  /** With unique identifiers, the product found by id is the only one with it. */
  lemma ProductIndexOfOwnId(ps: seq<Product>, k: nat)
    requires UniqueProductIds(ps)
    requires k < |ps|
    ensures ProductIndex(ps, ps[k].id) == Some(k)
  {
    var r := ProductIndex(ps, ps[k].id);
    assert ((p: Product) => p.id == ps[k].id)(ps[k]);
  }

  // ---- The same, one write to a whole store at a time ----

  lemma ValidAfterFreshId(s: DbState, n: nat)
    requires ValidState(s) && n >= s.nextId
    ensures ValidState(s.(nextId := n))
  {
  }

  lemma ValidAfterPaymentWrite(s: DbState, i: nat, p: Payment)
    requires ValidState(s)
    requires i < |s.payments|
    requires p.id == s.payments[i].id && p.userId == s.payments[i].userId
    requires p.amount == s.payments[i].amount && p.checkoutId == s.payments[i].checkoutId
    ensures ValidState(s.(payments := s.payments[i := p]))
  {
    LedgerAfterPaymentChange(s.payments, s.transactions, s.refundRequests, i, p);
  }

  lemma ValidAfterTransactionStatus(s: DbState, j: nat, st: TxStatus)
    requires ValidState(s)
    requires j < |s.transactions|
    ensures ValidState(s.(transactions := s.transactions[j := s.transactions[j].(status := st)]))
  {
    LedgerAfterTransactionStatus(s.payments, s.transactions, s.refundRequests, j, st);
    RefundsAfterTransactionStatus(s.transactions, j, st);
  }

  lemma ValidAfterAppendTransaction(s: DbState, t: Transaction)
    requires ValidState(s)
    requires MirrorsItsPayment(t, s.payments)
    requires t.kind == RefundTx ==> PaymentEntryOf(s.transactions, t.paymentId).Some?
    ensures ValidState(s.(transactions := s.transactions + [t]))
  {
    LedgerAfterAppendTransaction(s.payments, s.transactions, s.refundRequests, t);
    RefundsAfterAppendTransaction(s.transactions, t);
  }

  lemma ValidAfterAppendRequest(s: DbState, r: RefundRequest)
    requires ValidState(s)
    requires TransactionIndex(s.transactions, r.transactionId).Some?
    requires r.status == RefundPending ==> PendingRequestFor(s.refundRequests, r.transactionId).None?
    ensures ValidState(s.(refundRequests := s.refundRequests + [r]))
  {
    RequestsAfterAppend(s.payments, s.transactions, s.refundRequests, r);
  }

  lemma ValidAfterRequestStatus(s: DbState, i: nat, st: RefundStatus)
    requires ValidState(s)
    requires i < |s.refundRequests| && st != RefundPending
    ensures ValidState(s.(refundRequests := s.refundRequests[i := s.refundRequests[i].(status := st)]))
  {
    RequestsAfterStatus(s.payments, s.transactions, s.refundRequests, i, st);
  }

  lemma ValidAfterRemoveRequest(s: DbState, i: nat)
    requires ValidState(s)
    requires i < |s.refundRequests|
    ensures ValidState(s.(refundRequests := RemoveAt(s.refundRequests, i)))
  {
    RequestsAfterRemove(s.payments, s.transactions, s.refundRequests, i);
  }

  lemma ValidAfterCartAppend(s: DbState, r: CartRow)
    requires ValidState(s) && r.id == s.nextId
    ensures ValidState(s.(carts := s.carts + [r], nextId := s.nextId + 1))
  {
    var cs := s.carts + [r];
    assert forall k :: 0 <= k < |s.carts| ==> cs[k] == s.carts[k];
  }

  lemma ValidAfterCartWrite(s: DbState, k: nat, r: CartRow)
    requires ValidState(s) && k < |s.carts| && r.id == s.carts[k].id
    ensures ValidState(s.(carts := s.carts[k := r]))
  {
  }

  lemma ValidAfterCartRemove(s: DbState, k: nat)
    requires ValidState(s) && k < |s.carts|
    ensures ValidState(s.(carts := RemoveAt(s.carts, k)))
  {
    CartsAfterRemove(s.carts, k, s.nextId);
  }

  /** Keeping only some cart rows keeps the cart invariants. */
  lemma {:induction false} CartsAfterFilter(cs: seq<CartRow>, p: CartRow -> bool, bound: nat)
    requires CartIdsBelow(cs, bound) && UniqueCartIds(cs)
    ensures CartIdsBelow(Filter(cs, p), bound) && UniqueCartIds(Filter(cs, p))
    ensures forall j :: 0 <= j < |Filter(cs, p)| ==> Filter(cs, p)[j] in cs
  {
    if |cs| > 0 {
      var rest := Filter(cs[1..], p);
      CartsAfterFilter(cs[1..], p, bound);
      assert forall j :: 0 <= j < |rest| ==> rest[j] in cs && rest[j].id != cs[0].id;
      if p(cs[0]) {
        var f := [cs[0]] + rest;
        assert forall j :: 1 <= j < |f| ==> f[j] == rest[j - 1];
      }
    }
  }

  lemma ValidAfterCartFilter(s: DbState, p: CartRow -> bool)
    requires ValidState(s)
    ensures ValidState(s.(carts := Filter(s.carts, p)))
  {
    CartsAfterFilter(s.carts, p, s.nextId);
  }

  /** A product write that keeps every identifier keeps the product invariants. */
  lemma ValidAfterProductsWrite(s: DbState, ps: seq<Product>)
    requires ValidState(s)
    requires |ps| == |s.products| && forall k :: 0 <= k < |ps| ==> ps[k].id == s.products[k].id
    ensures ValidState(s.(products := ps))
  {
  }

  lemma ValidAfterProductAppend(s: DbState, p: Product)
    requires ValidState(s) && p.id == s.nextId
    ensures ValidState(s.(products := s.products + [p], nextId := s.nextId + 1))
  {
    var ps := s.products + [p];
    assert forall k :: 0 <= k < |s.products| ==> ps[k] == s.products[k];
  }

  lemma ValidAfterCheckoutAppend(s: DbState, c: Checkout)
    requires ValidState(s) && c.status in CheckoutStatuses
    ensures ValidState(s.(checkouts := s.checkouts + [c], nextId := s.nextId + 1))
  {
    var cs := s.checkouts + [c];
    assert forall k :: 0 <= k < |s.checkouts| ==> cs[k] == s.checkouts[k];
  }

  lemma ValidAfterCheckoutStatus(s: DbState, k: nat, st: string)
    requires ValidState(s) && k < |s.checkouts| && st in CheckoutStatuses
    ensures ValidState(s.(checkouts := s.checkouts[k := s.checkouts[k].(status := st)]))
  {
  }

  lemma ValidAfterCheckoutRemove(s: DbState, k: nat)
    requires ValidState(s) && k < |s.checkouts|
    ensures ValidState(s.(checkouts := RemoveAt(s.checkouts, k)))
  {
  }
}
