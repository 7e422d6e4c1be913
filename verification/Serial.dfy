// The serial specification: every operation as a function on ledger states, run on its own.
module Serial {
  import opened Base
  import opened Ledger

  const MAX_TOPUP_AMOUNT: int := 10000000
  const MAX_WITHDRAWAL_AMOUNT: int := 5000000
  const MAX_TRANSFER_AMOUNT: int := 5000000
  const REFUND_WINDOW: int := 30 * 24 * 3600 * 1000000000

  /** One call with its arguments. Uuids, gateway references and clock readings are arguments. */
  datatype Op =
    | DoTopup(identity: string, amount: int, gatewayRef: string, id: Uuid, now: int)
    | DoTopupWebhook(source: string, event: string, gatewayRef: string, report: string,
                     id: Uuid, childRef: Uuid, now: int)
    | DoWithdraw(identity: string, amount: int, gatewayRef: string, id: Uuid, now: int)
    | DoPayoutWebhook(source: string, event: string, gatewayRef: string, report: string,
                      id: Uuid, childRef: Uuid, now: int)
    | DoTransfer(identity: string, amount: int, email: string, ref: string, id: Uuid, now: int)
    | DoPay(user: string, merchant: string, price: I64, id: Uuid, payRef: Uuid, feeId: Uuid, feeRef: Uuid, now: int)
    | DoRequestRefund(ref: string, id: Uuid, now: int)
    | DoRefund(request: Uuid, id: Uuid, now: int)
    | DoMarkFailed(request: Uuid)

  /** What a call leaves behind; a delivery that voids commits and still replies with an error. */
  datatype Outcome = Committed(s: State, reply: Reply) | RolledBack(reply: Reply)

  /** The state WithTx leaves: all of the closure's writes, or none. */
  function After(s: State, o: Outcome): State {
    if o.Committed? then o.s else s
  }

  /** fee is the least whole number that covers 1.5 percent of the amount. */
  predicate IsFee(fee: int, amount: int) {
    15 * amount <= 1000 * fee < 15 * amount + 1000
  }

  lemma CeilIsFee(amount: int)
    ensures IsFee((amount * 15 + 999) / 1000, amount)
  {
  }

  /** calculateFeeCeil: 1.5 percent, rounded up. */
  function Fee(amount: int): (fee: int)
    ensures IsFee(fee, amount)
  {
    CeilIsFee(amount);
    var fee :| IsFee(fee, amount);
    fee
  }

  /** UpdateBalance: the three amounts truncated, the version one up. */
  function Updated(r: Row, bal: int, credit: int, debit: int): Row {
    r.(bal := Int64(bal), credit := Int64(credit), debit := Int64(debit), version := r.version + 1)
  }

  // ----- The rows each operation logs -----

  function TopupTxn(op: Op, dst: BalanceId): Txn
    requires op.DoTopup?
  {
    Txn(op.id, None, "topup_" + op.gatewayRef, Int64(op.amount), WORLD, dst, Inflight, Topup, op.now)
  }

  function WithdrawTxn(op: Op, src: BalanceId): Txn
    requires op.DoWithdraw?
  {
    Txn(op.id, None, "withdrawal_" + op.gatewayRef, Int64(op.amount), src, WORLD, Inflight, Withdrawal, op.now)
  }

  predicate IsWebhook(op: Op) {
    op.DoTopupWebhook? || op.DoPayoutWebhook?
  }

  /** The reference prefix of the parents a delivery may settle. */
  function Prefix(op: Op): string
    requires IsWebhook(op)
  {
    if op.DoTopupWebhook? then "topup_" else "withdrawal_"
  }

  function ParentRef(op: Op): string
    requires IsWebhook(op)
  {
    Prefix(op) + op.gatewayRef
  }

  function NewStatus(report: string): Status {
    if report == "succeeded" then Applied else Void
  }

  function SettleTxn(op: Op, parent: Txn): Txn
    requires IsWebhook(op)
  {
    Txn(op.id, Some(parent.id), Prefix(op) + op.childRef, parent.amount, parent.src, parent.dst,
        NewStatus(op.report), parent.kind, op.now)
  }

  function TransferTxn(op: Op, src: BalanceId, dst: BalanceId): Txn
    requires op.DoTransfer?
  {
    Txn(op.id, None, op.ref, Int64(op.amount), src, dst, Applied, P2PTransfer, op.now)
  }

  function PayTxn(op: Op, src: BalanceId, dst: BalanceId): Txn
    requires op.DoPay?
  {
    Txn(op.id, None, "payment_" + op.payRef, Int64(op.price - Fee(op.price)), src, dst, Applied, Payment, op.now)
  }

  function FeeTxn(op: Op, src: BalanceId): Txn
    requires op.DoPay?
  {
    Txn(op.feeId, Some(op.id), "revenue_" + op.feeRef, Int64(Fee(op.price)), src, REVENUE,
        Applied, PlatformRevenue, op.now)
  }

  function RefundTxn(op: Op, t: Txn): Txn
    requires op.DoRefund?
  {
    Txn(op.id, Some(t.id), t.ref + "_refund", t.amount, t.dst, t.src, Applied, Refund, op.now)
  }

  // ----- The operations -----

  function ApplyTopup(d: Directory, s: State, op: Op): Outcome
    requires op.DoTopup?
  {
    if MAX_TOPUP_AMOUNT < op.amount then RolledBack(MaxAmountExceeded)
    else if !Known(d.identity, op.identity, s.rows) || WORLD !in s.rows then RolledBack(BalanceNotFound)
    else
      var b := d.identity[op.identity];
      var t := TopupTxn(op, b);
      if !CanInsert(s.log, t) then RolledBack(UniqueViolation)
      else
        var r := s.rows[b];
        Committed(s.(log := s.log + [t],
                     rows := s.rows[b := Updated(r, r.bal, r.credit + op.amount, r.debit)]), Ok)
  }

  function ApplyWithdraw(d: Directory, s: State, op: Op): Outcome
    requires op.DoWithdraw?
  {
    if MAX_WITHDRAWAL_AMOUNT < op.amount then RolledBack(MaxAmountExceeded)
    else if !Known(d.identity, op.identity, s.rows) || WORLD !in s.rows then RolledBack(BalanceNotFound)
    else
      var b := d.identity[op.identity];
      var r := s.rows[b];
      var t := WithdrawTxn(op, b);
      if r.bal < op.amount then RolledBack(InsufficientBalance)
      else if !CanInsert(s.log, t) then RolledBack(UniqueViolation)
      else
        Committed(s.(log := s.log + [t],
                     rows := s.rows[b := Updated(r, r.bal - op.amount, r.credit, r.debit + op.amount)]), Ok)
  }

  /** The balance a delivery settles: the credited side of a top-up, the debited side of a payout. */
  function SettledBalance(op: Op, parent: Txn): BalanceId
    requires IsWebhook(op)
  {
    if op.DoTopupWebhook? then parent.dst else parent.src
  }

  function SettledRow(op: Op, r: Row, amount: I64): Row
    requires IsWebhook(op)
  {
    if op.DoTopupWebhook? then
      Updated(r, if NewStatus(op.report) == Applied then r.bal + amount else r.bal, r.credit - amount, r.debit)
    else
      Updated(r, if NewStatus(op.report) == Void then r.bal + amount else r.bal, r.credit, r.debit - amount)
  }

  /** A delivery's writes: the event, the child entry and the settled row. */
  function Settle(s: State, op: Op, parent: Txn): State
    requires IsWebhook(op) && SettledBalance(op, parent) in s.rows
  {
    var b := SettledBalance(op, parent);
    s.(events := s.events + {(op.source, op.event)},
       log := s.log + [SettleTxn(op, parent)],
       rows := s.rows[b := SettledRow(op, s.rows[b], parent.amount)])
  }

  function ApplyWebhook(s: State, op: Op): Outcome
    requires IsWebhook(op)
  {
    match Find(s.log, ParentRef(op))
    case None => RolledBack(TransactionNotFound)
    case Some(p) =>
      if p.status == Applied then RolledBack(AlreadyCompleted)
      else if p.status == Rejected || p.status == Void then RolledBack(AlreadyFailed)
      else if op.report != "succeeded" && op.report != "failed" then RolledBack(UnknownWebhookStatus)
      else if (op.source, op.event) in s.events then RolledBack(WebhookAlreadyProcessed)
      else
        var b := SettledBalance(op, p);
        var t := SettleTxn(op, p);
        if b !in s.rows then RolledBack(BalanceNotFound)
        else if !CanInsert(s.log, t) then RolledBack(UniqueViolation)
        else
          Committed(Settle(s, op, p), if t.status == Void then GatewayFailure else Ok)
  }

  function ApplyTransfer(d: Directory, s: State, op: Op): Outcome
    requires op.DoTransfer?
  {
    if MAX_TRANSFER_AMOUNT < op.amount then RolledBack(MaxAmountExceeded)
    else if !Known(d.identity, op.identity, s.rows) then RolledBack(BalanceNotFound)
    else
      var a := d.identity[op.identity];
      if s.rows[a].bal < op.amount then RolledBack(InsufficientBalance)
      else if !Known(d.email, op.email, s.rows) then RolledBack(BalanceNotFound)
      else
        var b := d.email[op.email];
        if a == b then RolledBack(SelfTransfer)
        else if s.rows[b].ledger == MERCHANT_LEDGER then RolledBack(TransferToMerchant)
        else
          var t := TransferTxn(op, a, b);
          if !CanInsert(s.log, t) then RolledBack(UniqueViolation)
          else
            var x, y := s.rows[a], s.rows[b];
            Committed(s.(log := s.log + [t],
                         rows := s.rows[a := Updated(x, x.bal - op.amount, x.credit, x.debit)]
                                       [b := Updated(y, y.bal + op.amount, y.credit, y.debit)]), Ok)
  }

  function ApplyPay(d: Directory, s: State, op: Op): Outcome
    requires op.DoPay?
  {
    if !Known(d.user, op.user, s.rows) then RolledBack(BalanceNotFound)
    else
      var a := d.user[op.user];
      var x := s.rows[a];
      if x.bal < op.price then RolledBack(InsufficientBalance)
      else if !Known(d.merchant, op.merchant, s.rows) || REVENUE !in s.rows then RolledBack(BalanceNotFound)
      else
        var m := d.merchant[op.merchant];
        var y, z := s.rows[m], s.rows[REVENUE];
        var p := PayTxn(op, a, m);
        var f := FeeTxn(op, a);
        if !CanInsert(s.log, p) || !CanInsert(s.log + [p], f) then RolledBack(UniqueViolation)
        else if a == m || a == REVENUE || m == REVENUE then RolledBack(OptimisticLock)
        else
          Committed(s.(log := s.log + [p, f],
                       rows := s.rows[a := Updated(x, x.bal - op.price, x.credit, x.debit)]
                                     [m := Updated(y, y.bal + (op.price - Fee(op.price)), y.credit, y.debit)]
                                     [REVENUE := Updated(z, z.bal + Fee(op.price), z.credit, z.debit)]), Ok)
  }

  function ApplyRequestRefund(s: State, op: Op): Outcome
    requires op.DoRequestRefund?
  {
    if !IsPayment(op.ref) then RolledBack(NonRefundable)
    else
      match Find(s.log, op.ref)
      case None => RolledBack(TransactionNotFound)
      case Some(t) =>
        if t.status != Applied then RolledBack(NonRefundable)
        else if op.now - t.created > REFUND_WINDOW then RolledBack(NonRefundableExpired)
        else if op.id in s.reqs || HasPending(s.reqs, op.ref) then RolledBack(UniqueViolation)
        else Committed(s.(reqs := s.reqs[op.id := Request(op.ref, Pending, op.now)]), Ok)
  }

  function ApplyRefund(s: State, op: Op): Outcome
    requires op.DoRefund?
  {
    if op.request !in s.reqs || s.reqs[op.request].status != Pending then RolledBack(NoPendingRequests)
    else
      var q := s.reqs[op.request];
      match Find(s.log, q.ref)
      case None => RolledBack(TransactionNotFound)
      case Some(t) =>
        if t.dst !in s.rows || t.src !in s.rows then RolledBack(BalanceNotFound)
        else
          var m, c := s.rows[t.dst], s.rows[t.src];
          var r := RefundTxn(op, t);
          if m.bal < t.amount then RolledBack(MerchantInsufficientBalance)
          else if t.dst == t.src then RolledBack(OptimisticLock)
          else if !CanInsert(s.log, r) then RolledBack(UniqueViolation)
          else
            Committed(s.(log := s.log + [r],
                         rows := s.rows[t.dst := Updated(m, m.bal - t.amount, m.credit, m.debit)]
                                       [t.src := Updated(c, c.bal + t.amount, c.credit, c.debit)],
                         reqs := s.reqs[op.request := q.(status := Completed)]), Ok)
  }

  /** MarkFailed runs outside any transaction and does not look at the status it overwrites. */
  function ApplyMarkFailed(s: State, op: Op): Outcome
    requires op.DoMarkFailed?
  {
    if op.request !in s.reqs then Committed(s, Ok)
    else Committed(s.(reqs := s.reqs[op.request := s.reqs[op.request].(status := Failed)]), Ok)
  }

  function Apply(d: Directory, s: State, op: Op): Outcome {
    match op
    case DoTopup(_, _, _, _, _) => ApplyTopup(d, s, op)
    case DoTopupWebhook(_, _, _, _, _, _, _) => ApplyWebhook(s, op)
    case DoWithdraw(_, _, _, _, _) => ApplyWithdraw(d, s, op)
    case DoPayoutWebhook(_, _, _, _, _, _, _) => ApplyWebhook(s, op)
    case DoTransfer(_, _, _, _, _, _) => ApplyTransfer(d, s, op)
    case DoPay(_, _, _, _, _, _, _, _) => ApplyPay(d, s, op)
    case DoRequestRefund(_, _, _) => ApplyRequestRefund(s, op)
    case DoRefund(_, _, _) => ApplyRefund(s, op)
    case DoMarkFailed(_) => ApplyMarkFailed(s, op)
  }

  /** One attempt after the other; an attempt that rolls back leaves the state alone. */
  function RunAll(d: Directory, s: State, ops: seq<Op>): State {
    if ops == [] then s
    else
      var n := |ops| - 1;
      var mid := RunAll(d, s, ops[..n]);
      After(mid, Apply(d, mid, ops[n]))
  }

  /** Every one of these operations committed in its turn. */
  predicate AllCommit(d: Directory, s: State, ops: seq<Op>) {
    forall k | 0 <= k < |ops| :: Apply(d, RunAll(d, s, ops[..k]), ops[k]).Committed?
  }

  lemma RunAllSnoc(d: Directory, s: State, ops: seq<Op>, op: Op)
    ensures RunAll(d, s, ops + [op]) == After(RunAll(d, s, ops), Apply(d, RunAll(d, s, ops), op))
  {
    assert (ops + [op])[..|ops|] == ops;
  }

  lemma {:induction false} RunAllConcat(d: Directory, s: State, a: seq<Op>, b: seq<Op>)
    ensures RunAll(d, s, a + b) == RunAll(d, RunAll(d, s, a), b)
    decreases |b|
  {
    if b == [] {
      assert a + b == a;
    } else {
      var n := |b| - 1;
      assert (a + b)[..|a| + n] == a + b[..n];
      RunAllConcat(d, s, a, b[..n]);
    }
  }
}
