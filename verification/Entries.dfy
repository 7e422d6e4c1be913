// What the log can contain: the shape of every entry, kept by every operation.
module Entries {
  import opened Base
  import opened Ledger
  import opened Serial

  /** Balances that belong to a customer or a merchant. */
  predicate IsUser(ids: set<BalanceId>, b: BalanceId) {
    b in ids && b != WORLD && b != REVENUE
  }

  /** @World and @Revenue have a NULL identity_id (migration 000006), so no join returns them. */
  predicate DirectoryOk(d: Directory) {
    && (forall k | k in d.identity :: d.identity[k] != WORLD && d.identity[k] != REVENUE)
    && (forall k | k in d.email :: d.email[k] != WORLD && d.email[k] != REVENUE)
    && (forall k | k in d.user :: d.user[k] != WORLD && d.user[k] != REVENUE)
    && (forall k | k in d.merchant :: d.merchant[k] != WORLD && d.merchant[k] != REVENUE)
  }

  /** Entry c settles the reservation p. */
  predicate Settles(c: Txn, p: Txn) {
    && c.parent == Some(p.id) && p.status == Inflight && c.kind == p.kind
    && c.amount == p.amount && c.src == p.src && c.dst == p.dst
  }

  predicate IsMove(kind: Kind) {
    kind == P2PTransfer || kind == Payment || kind == Refund
  }

  /** Entry r takes back the movement p. */
  predicate Reverses(r: Txn, p: Txn) {
    && r.parent == Some(p.id) && r.ref == p.ref + "_refund"
    && r.amount == p.amount && r.src == p.dst && r.dst == p.src && IsMove(p.kind)
  }

  predicate EntryOk(ids: set<BalanceId>, log: seq<Txn>, t: Txn) {
    match t.kind
    case Topup =>
      && "topup_" <= t.ref && t.src == WORLD && IsUser(ids, t.dst) && t.status != Rejected
      && (if t.status == Inflight then t.parent == None else exists p | p in log :: Settles(t, p))
    case Withdrawal =>
      && "withdrawal_" <= t.ref && IsUser(ids, t.src) && t.dst == WORLD && t.status != Rejected
      && (if t.status == Inflight then t.parent == None else exists p | p in log :: Settles(t, p))
    case P2PTransfer =>
      t.status == Applied && IsUser(ids, t.src) && IsUser(ids, t.dst) && t.src != t.dst
    case Payment =>
      "payment_" <= t.ref && t.status == Applied && IsUser(ids, t.src) && IsUser(ids, t.dst) && t.src != t.dst
    case PlatformRevenue =>
      "revenue_" <= t.ref && t.status == Applied && IsUser(ids, t.src) && t.dst == REVENUE
    case Refund =>
      && t.status == Applied && IsUser(ids, t.src) && IsUser(ids, t.dst) && t.src != t.dst
      && exists p | p in log :: Reverses(t, p)
  }

  predicate Distinct(log: seq<Txn>) {
    forall i, j | 0 <= i < j < |log| :: log[i].id != log[j].id && log[i].ref != log[j].ref
  }

  predicate LogOk(ids: set<BalanceId>, log: seq<Txn>) {
    Distinct(log) && forall t | t in log :: EntryOk(ids, log, t)
  }

  /** A refund request names an applied entry whose reference reads as a payment. */
  predicate RequestOk(log: seq<Txn>, q: Request) {
    IsPayment(q.ref) && Find(log, q.ref).Some? && Find(log, q.ref).value.status == Applied
  }

  predicate Inv(s: State) {
    && WORLD in s.rows && REVENUE in s.rows
    && LogOk(s.rows.Keys, s.log)
    && forall q | q in s.reqs :: RequestOk(s.log, s.reqs[q])
  }

  /** What every operation does to the tables as a whole. */
  predicate Extends(s: State, s': State) {
    && Inv(s') && s'.rows.Keys == s.rows.Keys && s.log <= s'.log && s.events <= s'.events
  }

  lemma LogOkAppend(ids: set<BalanceId>, log: seq<Txn>, t: Txn)
    requires LogOk(ids, log) && CanInsert(log, t) && EntryOk(ids, log + [t], t)
    ensures LogOk(ids, log + [t])
  {
    forall u | u in log ensures EntryOk(ids, log + [t], u) {
      assert EntryOk(ids, log, u);
    }
  }

  /** Logging one well-formed entry, whatever happens to the amounts in the rows. */
  lemma AppendExtends(s: State, s': State, t: Txn)
    requires Inv(s) && CanInsert(s.log, t) && EntryOk(s.rows.Keys, s.log + [t], t)
    requires s'.log == s.log + [t] && s'.rows.Keys == s.rows.Keys && s.events <= s'.events
    requires forall q | q in s'.reqs :: q in s.reqs && s'.reqs[q].ref == s.reqs[q].ref
    ensures Extends(s, s')
  {
    LogOkAppend(s.rows.Keys, s.log, t);
    forall q | q in s'.reqs ensures RequestOk(s'.log, s'.reqs[q]) {
      assert RequestOk(s.log, s.reqs[q]);
      FindAppend(s.log, [t], s.reqs[q].ref);
    }
  }

  /**
   * A delivery settles only a reservation of its own kind: neither a child row, nor a reservation
   * of the other kind, nor a transfer whose caller chose a reference with the right prefix.
   */
  lemma DeliverySettlesItsOwnKind(s: State, op: Op) returns (p: Txn)
    requires Inv(s) && IsWebhook(op) && ApplyWebhook(s, op).Committed?
    ensures Find(s.log, ParentRef(op)) == Some(p) && p in s.log && p.ref == ParentRef(op)
    ensures p.status == Inflight && p.parent == None && IsUser(s.rows.Keys, SettledBalance(op, p))
    ensures if op.DoTopupWebhook? then p.kind == Topup && p.src == WORLD else p.kind == Withdrawal && p.dst == WORLD
    ensures (op.source, op.event) !in s.events && CanInsert(s.log, SettleTxn(op, p))
    ensures ApplyWebhook(s, op).s == Settle(s, op, p)
  {
    hide SettledRow;
    p := Find(s.log, ParentRef(op)).value;
    assert EntryOk(s.rows.Keys, s.log, p);
    assert p.ref[0] == Prefix(op)[0];
  }

  /** Only a transfer, a payment or a refund can be named by a refund request. */
  lemma RefundableIsMove(s: State, t: Txn)
    requires Inv(s) && t in s.log && IsPayment(t.ref)
    ensures IsMove(t.kind) && t.status == Applied
    ensures IsUser(s.rows.Keys, t.src) && IsUser(s.rows.Keys, t.dst) && t.src != t.dst
  {
    assert EntryOk(s.rows.Keys, s.log, t);
    PaymentStartsWithP(t.ref);
  }

  lemma TopupKeepsInv(d: Directory, s: State, op: Op)
    requires DirectoryOk(d) && Inv(s) && op.DoTopup? && ApplyTopup(d, s, op).Committed?
    ensures Extends(s, ApplyTopup(d, s, op).s)
  {
    hide Updated;
    AppendExtends(s, ApplyTopup(d, s, op).s, TopupTxn(op, d.identity[op.identity]));
  }

  lemma WithdrawKeepsInv(d: Directory, s: State, op: Op)
    requires DirectoryOk(d) && Inv(s) && op.DoWithdraw? && ApplyWithdraw(d, s, op).Committed?
    ensures Extends(s, ApplyWithdraw(d, s, op).s)
  {
    hide Updated;
    AppendExtends(s, ApplyWithdraw(d, s, op).s, WithdrawTxn(op, d.identity[op.identity]));
  }

  lemma WebhookKeepsInv(s: State, op: Op)
    requires Inv(s) && IsWebhook(op) && ApplyWebhook(s, op).Committed?
    ensures Extends(s, ApplyWebhook(s, op).s)
  {
    hide SettledRow;
    hide ApplyWebhook;
    var p := DeliverySettlesItsOwnKind(s, op);
    var t := SettleTxn(op, p);
    assert EntryOk(s.rows.Keys, s.log + [t], t) by {
      assert EntryOk(s.rows.Keys, s.log, p);
      assert p in s.log + [t] && Settles(t, p);
    }
    AppendExtends(s, Settle(s, op, p), t);
  }

  lemma TransferKeepsInv(d: Directory, s: State, op: Op)
    requires DirectoryOk(d) && Inv(s) && op.DoTransfer? && ApplyTransfer(d, s, op).Committed?
    ensures Extends(s, ApplyTransfer(d, s, op).s)
  {
    hide Updated;
    AppendExtends(s, ApplyTransfer(d, s, op).s, TransferTxn(op, d.identity[op.identity], d.email[op.email]));
  }

  lemma PayKeepsInv(d: Directory, s: State, op: Op)
    requires DirectoryOk(d) && Inv(s) && op.DoPay? && ApplyPay(d, s, op).Committed?
    ensures Extends(s, ApplyPay(d, s, op).s)
  {
    hide Updated;
    var a := d.user[op.user];
    var p, f := PayTxn(op, a, d.merchant[op.merchant]), FeeTxn(op, a);
    var mid := s.(log := s.log + [p]);
    AppendExtends(s, mid, p);
    assert mid.log + [f] == s.log + [p, f];
    AppendExtends(mid, ApplyPay(d, s, op).s, f);
  }

  lemma RefundKeepsInv(s: State, op: Op)
    requires Inv(s) && op.DoRefund? && ApplyRefund(s, op).Committed?
    ensures Extends(s, ApplyRefund(s, op).s)
  {
    hide LogOk;
    hide CanInsert;
    hide Updated;
    var t := Find(s.log, s.reqs[op.request].ref).value;
    var r := RefundTxn(op, t);
    RefundableIsMove(s, t);
    assert EntryOk(s.rows.Keys, s.log + [r], r) by {
      assert t in s.log + [r] && Reverses(r, t);
    }
    AppendExtends(s, ApplyRefund(s, op).s, r);
  }

  lemma RequestRefundKeepsInv(s: State, op: Op)
    requires Inv(s) && op.DoRequestRefund? && ApplyRequestRefund(s, op).Committed?
    ensures Extends(s, ApplyRequestRefund(s, op).s)
  {
  }

  lemma MarkFailedKeepsInv(s: State, op: Op)
    requires Inv(s) && op.DoMarkFailed?
    ensures Extends(s, ApplyMarkFailed(s, op).s)
  {
  }

  /** Every operation keeps the invariant and the set of balances, and only appends to the log. */
  lemma ApplyKeepsInv(d: Directory, s: State, op: Op)
    requires DirectoryOk(d) && Inv(s)
    ensures Extends(s, After(s, Apply(d, s, op)))
  {
    if Apply(d, s, op).Committed? {
      match op
      case DoTopup(_, _, _, _, _) => TopupKeepsInv(d, s, op);
      case DoTopupWebhook(_, _, _, _, _, _, _) => WebhookKeepsInv(s, op);
      case DoWithdraw(_, _, _, _, _) => WithdrawKeepsInv(d, s, op);
      case DoPayoutWebhook(_, _, _, _, _, _, _) => WebhookKeepsInv(s, op);
      case DoTransfer(_, _, _, _, _, _) => TransferKeepsInv(d, s, op);
      case DoPay(_, _, _, _, _, _, _, _) => PayKeepsInv(d, s, op);
      case DoRequestRefund(_, _, _) => RequestRefundKeepsInv(s, op);
      case DoRefund(_, _, _) => RefundKeepsInv(s, op);
      case DoMarkFailed(_) => MarkFailedKeepsInv(s, op);
    }
  }

  /** A database before its first operation: balances exist, nothing has moved. */
  predicate Fresh(s: State) {
    && WORLD in s.rows && REVENUE in s.rows && s.log == [] && s.events == {} && s.reqs == map[]
    && forall b | b in s.rows :: s.rows[b].bal == s.rows[b].credit == s.rows[b].debit == 0 && s.rows[b].version == 0
  }

  lemma {:induction false} RunKeepsInv(d: Directory, s: State, ops: seq<Op>)
    requires DirectoryOk(d) && Inv(s)
    ensures Extends(s, RunAll(d, s, ops))
    decreases |ops|
  {
    if ops != [] {
      var n := |ops| - 1;
      RunKeepsInv(d, s, ops[..n]);
      ApplyKeepsInv(d, RunAll(d, s, ops[..n]), ops[n]);
    }
  }
}
