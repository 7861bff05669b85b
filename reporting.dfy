/** The admin transaction report (getTransactionReport): counts by type and by
    status, and the net amount obtained by folding over all transactions. */
module Reporting {
  import opened Records

  datatype Report = Report(
    totalPayments: nat,
    totalRefunds: nat,
    totalAmount: int,
    pending: nat,
    completed: nat,
    failed: nat,
    refunded: nat)

  /** `transactions.filter(t => t.type === kind).length` */
  function CountKind(ts: seq<Transaction>, kind: TxKind): nat {
    if |ts| == 0 then 0
    else (if ts[0].kind == kind then 1 else 0) + CountKind(ts[1..], kind)
  }

  /** `transactions.filter(t => t.status === status).length` */
  function CountStatus(ts: seq<Transaction>, status: TxStatus): nat {
    if |ts| == 0 then 0
    else (if ts[0].status == status then 1 else 0) + CountStatus(ts[1..], status)
  }

  /** The reducer's step: a payment adds its amount, a refund subtracts it. */
  function Signed(t: Transaction): int {
    if t.kind == PaymentTx then t.amount else -t.amount
  }

  /** `transactions.reduce((sum, t) => sum + ..., acc)`: a left fold. */
  function Fold(ts: seq<Transaction>, acc: int): int {
    if |ts| == 0 then acc else Fold(ts[1..], acc + Signed(ts[0]))
  }

  /** The sum of the amounts of the transactions of one kind: the reference
      the report's net amount is checked against. */
  function SumOfKind(ts: seq<Transaction>, kind: TxKind): int {
    if |ts| == 0 then 0
    else (if ts[0].kind == kind then ts[0].amount else 0) + SumOfKind(ts[1..], kind)
  }

  /** The report over all stored transactions. */
  function BuildReport(ts: seq<Transaction>): (r: Report)
    ensures r.totalPayments + r.totalRefunds == |ts|
    ensures r.pending + r.completed + r.failed + r.refunded == |ts|
    ensures r.totalAmount == SumOfKind(ts, PaymentTx) - SumOfKind(ts, RefundTx)
  {
    KindsPartition(ts);
    StatusesPartition(ts);
    FoldIsNetAmount(ts, 0);
    Report(
      CountKind(ts, PaymentTx),
      CountKind(ts, RefundTx),
      Fold(ts, 0),
      CountStatus(ts, TxPending),
      CountStatus(ts, TxCompleted),
      CountStatus(ts, TxFailed),
      CountStatus(ts, TxRefunded))
  }

  /** Every transaction is a payment or a refund. */
  lemma {:induction false} KindsPartition(ts: seq<Transaction>)
    ensures CountKind(ts, PaymentTx) + CountKind(ts, RefundTx) == |ts|
  {
    if |ts| > 0 {
      KindsPartition(ts[1..]);
    }
  }

  /** Every transaction has exactly one of the four statuses. */
  lemma {:induction false} StatusesPartition(ts: seq<Transaction>)
    ensures CountStatus(ts, TxPending) + CountStatus(ts, TxCompleted)
          + CountStatus(ts, TxFailed) + CountStatus(ts, TxRefunded) == |ts|
  {
    if |ts| > 0 {
      StatusesPartition(ts[1..]);
    }
  }

  /** The fold computes payments minus refunds, on top of its seed. */
  lemma {:induction false} FoldIsNetAmount(ts: seq<Transaction>, acc: int)
    ensures Fold(ts, acc) == acc + SumOfKind(ts, PaymentTx) - SumOfKind(ts, RefundTx)
  {
    if |ts| > 0 {
      FoldIsNetAmount(ts[1..], acc + Signed(ts[0]));
    }
  }

  // ---- The report along the refund paths ----

  lemma {:induction false} SumOfKindAppend(ts: seq<Transaction>, t: Transaction, kind: TxKind)
    ensures SumOfKind(ts + [t], kind) == SumOfKind(ts, kind) + (if t.kind == kind then t.amount else 0)
  {
    if |ts| > 0 {
      assert (ts + [t])[1..] == ts[1..] + [t];
      SumOfKindAppend(ts[1..], t, kind);
    }
  }

  lemma {:induction false} CountKindAppend(ts: seq<Transaction>, t: Transaction, kind: TxKind)
    ensures CountKind(ts + [t], kind) == CountKind(ts, kind) + (if t.kind == kind then 1 else 0)
  {
    if |ts| > 0 {
      assert (ts + [t])[1..] == ts[1..] + [t];
      CountKindAppend(ts[1..], t, kind);
    }
  }

  /** A status write leaves the amounts and kinds untouched. */
  lemma {:induction false} StatusChangeKeepsSums(ts: seq<Transaction>, i: nat, st: TxStatus, kind: TxKind)
    requires i < |ts|
    ensures SumOfKind(ts[i := ts[i].(status := st)], kind) == SumOfKind(ts, kind)
    ensures CountKind(ts[i := ts[i].(status := st)], kind) == CountKind(ts, kind)
  {
    if i > 0 {
      assert ts[i := ts[i].(status := st)][1..] == ts[1..][i - 1 := ts[i].(status := st)];
      StatusChangeKeepsSums(ts[1..], i - 1, st, kind);
    }
  }

  /** Issuing a refund (a refund entry of amount `a` appended, the payment
      entry marked refunded) lowers the net amount by exactly `a` and adds one
      refund to the count, whatever the entry's earlier status. */
  lemma RefundLowersNetAmount(ts: seq<Transaction>, i: nat, refund: Transaction)
    requires i < |ts|
    requires refund.kind == RefundTx
    ensures var after := ts[i := ts[i].(status := TxRefunded)] + [refund];
      && BuildReport(after).totalAmount == BuildReport(ts).totalAmount - refund.amount
      && BuildReport(after).totalPayments == BuildReport(ts).totalPayments
      && BuildReport(after).totalRefunds == BuildReport(ts).totalRefunds + 1
  {
    var mid := ts[i := ts[i].(status := TxRefunded)];
    StatusChangeKeepsSums(ts, i, TxRefunded, PaymentTx);
    StatusChangeKeepsSums(ts, i, TxRefunded, RefundTx);
    SumOfKindAppend(mid, refund, PaymentTx);
    SumOfKindAppend(mid, refund, RefundTx);
    CountKindAppend(mid, refund, PaymentTx);
    CountKindAppend(mid, refund, RefundTx);
  }
}
