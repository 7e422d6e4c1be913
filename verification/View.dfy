// The balances table is a materialised view of the log.
module View {
  import opened Base
  import opened Ledger
  import opened Serial
  import opened Entries

  datatype Field = Bal | Credit | Debit

  function Get(f: Field, r: Row): I64 {
    match f case Bal => r.bal case Credit => r.credit case Debit => r.debit
  }

  /** What entry t adds to field f of its destination. */
  function ToDst(f: Field, t: Txn): int {
    match (f, t.kind)
    case (Bal, Topup) => if t.status == Applied then t.amount else 0
    case (Bal, Withdrawal) => 0
    case (Bal, _) => t.amount
    case (Credit, Topup) => if t.status == Inflight then t.amount else -(t.amount as int)
    case (_, _) => 0
  }

  /** What entry t adds to field f of its source. */
  function ToSrc(f: Field, t: Txn): int {
    match (f, t.kind)
    case (Bal, Topup) => 0
    case (Bal, Withdrawal) =>
      if t.status == Inflight then -(t.amount as int) else if t.status == Void then t.amount else 0
    case (Bal, _) => -(t.amount as int)
    case (Debit, Withdrawal) => if t.status == Inflight then t.amount else -(t.amount as int)
    case (_, _) => 0
  }

  function Share(f: Field, t: Txn, b: BalanceId): int {
    (if b == t.dst then ToDst(f, t) else 0) + (if b == t.src then ToSrc(f, t) else 0)
  }

  /** Field f of balance b as the log alone determines it, in unbounded integers. */
  function Sum(f: Field, log: seq<Txn>, b: BalanceId): int {
    if log == [] then 0 else Sum(f, log[..|log| - 1], b) + Share(f, log[|log| - 1], b)
  }

  lemma SumSnoc(f: Field, log: seq<Txn>, t: Txn, b: BalanceId)
    ensures Sum(f, log + [t], b) == Sum(f, log, b) + Share(f, t, b)
  {
    assert (log + [t])[..|log|] == log;
  }

  lemma {:induction false} SumConcat(f: Field, log: seq<Txn>, more: seq<Txn>, b: BalanceId)
    ensures Sum(f, log + more, b) == Sum(f, log, b) + Sum(f, more, b)
  {
    if more == [] {
      assert log + more == log;
    } else {
      var n := |more| - 1;
      SumConcat(f, log, more[..n], b);
      assert log + more == (log + more[..n]) + [more[n]];
      SumSnoc(f, log + more[..n], more[n], b);
    }
  }

  /** Each column is the log's fold, truncated to 64 bits. */
  predicate InView(s: State) {
    forall f, b | b in s.rows :: Get(f, s.rows[b]) == Int64(Sum(f, s.log, b))
  }

  /** The log grows by the entries `more`, and field f of balance b moves by exactly what they say. */
  predicate Follows(s: State, s': State, more: seq<Txn>, f: Field, b: BalanceId)
    requires b in s.rows
  {
    && s'.log == s.log + more && b in s'.rows
    && Get(f, s'.rows[b]) == Int64(Get(f, s.rows[b]) + Sum(f, more, b))
  }

  lemma SumOne(f: Field, t: Txn, b: BalanceId)
    ensures Sum(f, [t], b) == Share(f, t, b)
  {
    SumSnoc(f, [], t, b);
  }

  lemma SumTwo(f: Field, t: Txn, u: Txn, b: BalanceId)
    ensures Sum(f, [t, u], b) == Share(f, t, b) + Share(f, u, b)
  {
    SumOne(f, t, b);
    assert [t, u] == [t] + [u];
    SumSnoc(f, [t], u, b);
  }

  /** Logging the truncated amount and applying the full one agree modulo 2^64. */
  lemma TruncatedAmount(x: int, a: int)
    ensures Int64(x + Int64(a)) == Int64(x + a) && Int64(x - Int64(a)) == Int64(x - a)
  {
    Int64Add(a, x);
    Int64Sub(x, a);
  }

  lemma TopupFollowsLog(d: Directory, s: State, op: Op, f: Field, b: BalanceId)
    requires op.DoTopup? && ApplyTopup(d, s, op).Committed? && b in s.rows
    ensures Follows(s, ApplyTopup(d, s, op).s, [TopupTxn(op, d.identity[op.identity])], f, b)
  {
    hide Wraps;
    SumOne(f, TopupTxn(op, d.identity[op.identity]), b);
    TruncatedAmount(Get(f, s.rows[b]), op.amount);
  }

  lemma WithdrawFollowsLog(d: Directory, s: State, op: Op, f: Field, b: BalanceId)
    requires op.DoWithdraw? && ApplyWithdraw(d, s, op).Committed? && b in s.rows
    ensures Follows(s, ApplyWithdraw(d, s, op).s, [WithdrawTxn(op, d.identity[op.identity])], f, b)
  {
    hide Wraps;
    SumOne(f, WithdrawTxn(op, d.identity[op.identity]), b);
    TruncatedAmount(Get(f, s.rows[b]), op.amount);
  }

  lemma SettleFollowsLog(s: State, op: Op, p: Txn, f: Field, b: BalanceId)
    requires IsWebhook(op) && SettledBalance(op, p) in s.rows && b in s.rows
    requires if op.DoTopupWebhook? then p.kind == Topup else p.kind == Withdrawal
    ensures Follows(s, Settle(s, op, p), [SettleTxn(op, p)], f, b)
  {
    hide Wraps;
    SumOne(f, SettleTxn(op, p), b);
  }

  lemma WebhookFollowsLog(s: State, op: Op, f: Field, b: BalanceId) returns (t: Txn)
    requires Inv(s) && IsWebhook(op) && ApplyWebhook(s, op).Committed? && b in s.rows
    ensures Follows(s, ApplyWebhook(s, op).s, [t], f, b)
  {
    hide ApplyWebhook;
    hide Inv;
    hide Follows;
    var p := DeliverySettlesItsOwnKind(s, op);
    SettleFollowsLog(s, op, p, f, b);
    t := SettleTxn(op, p);
  }

  lemma TransferFollowsLog(d: Directory, s: State, op: Op, f: Field, b: BalanceId)
    requires op.DoTransfer? && ApplyTransfer(d, s, op).Committed? && b in s.rows
    ensures Follows(s, ApplyTransfer(d, s, op).s, [TransferTxn(op, d.identity[op.identity], d.email[op.email])], f, b)
  {
    hide Int64;
    SumOne(f, TransferTxn(op, d.identity[op.identity], d.email[op.email]), b);
    TruncatedAmount(Get(f, s.rows[b]), op.amount);
  }

  /** A stored price splits without truncation, and the two legs add up to it. */
  lemma FeeSplit(price: I64)
    ensures Int64(Fee(price)) == Fee(price) && Int64(price - Fee(price)) == price - Fee(price)
    ensures 0 <= price ==> 0 <= Fee(price) <= price
  {
  }

  lemma PayFollowsLog(d: Directory, s: State, op: Op, f: Field, b: BalanceId)
    requires op.DoPay? && ApplyPay(d, s, op).Committed? && b in s.rows
    ensures var a := d.user[op.user];
            Follows(s, ApplyPay(d, s, op).s, [PayTxn(op, a, d.merchant[op.merchant]), FeeTxn(op, a)], f, b)
  {
    hide Wraps;
    hide CanInsert;
    var a := d.user[op.user];
    FeeSplit(op.price);
    SumTwo(f, PayTxn(op, a, d.merchant[op.merchant]), FeeTxn(op, a), b);
  }

  lemma RefundFollowsLog(s: State, op: Op, f: Field, b: BalanceId)
    requires op.DoRefund? && ApplyRefund(s, op).Committed? && b in s.rows
    ensures Follows(s, ApplyRefund(s, op).s, [RefundTxn(op, Find(s.log, s.reqs[op.request].ref).value)], f, b)
  {
    hide Wraps;
    SumOne(f, RefundTxn(op, Find(s.log, s.reqs[op.request].ref).value), b);
  }

  lemma ApplyFollowsLog(d: Directory, s: State, op: Op, f: Field, b: BalanceId) returns (more: seq<Txn>)
    requires Inv(s) && b in s.rows
    ensures Follows(s, After(s, Apply(d, s, op)), more, f, b)
  {
    hide Wraps;
    more := [];
    if Apply(d, s, op).Committed? {
      match op
      case DoTopup(_, _, _, _, _) =>
        TopupFollowsLog(d, s, op, f, b);
        more := [TopupTxn(op, d.identity[op.identity])];
      case DoTopupWebhook(_, _, _, _, _, _, _) =>
        var t := WebhookFollowsLog(s, op, f, b);
        more := [t];
      case DoWithdraw(_, _, _, _, _) =>
        WithdrawFollowsLog(d, s, op, f, b);
        more := [WithdrawTxn(op, d.identity[op.identity])];
      case DoPayoutWebhook(_, _, _, _, _, _, _) =>
        var t := WebhookFollowsLog(s, op, f, b);
        more := [t];
      case DoTransfer(_, _, _, _, _, _) =>
        TransferFollowsLog(d, s, op, f, b);
        more := [TransferTxn(op, d.identity[op.identity], d.email[op.email])];
      case DoPay(_, _, _, _, _, _, _, _) =>
        PayFollowsLog(d, s, op, f, b);
        more := [PayTxn(op, d.user[op.user], d.merchant[op.merchant]), FeeTxn(op, d.user[op.user])];
      case DoRequestRefund(_, _, _) =>
      case DoRefund(_, _, _) =>
        RefundFollowsLog(s, op, f, b);
        more := [RefundTxn(op, Find(s.log, s.reqs[op.request].ref).value)];
      case DoMarkFailed(_) =>
    }
  }

  lemma ApplyKeepsView(d: Directory, s: State, op: Op)
    requires DirectoryOk(d) && Inv(s) && InView(s)
    ensures InView(After(s, Apply(d, s, op)))
  {
    hide Wraps;
    hide Apply;
    ApplyKeepsInv(d, s, op);
    var s' := After(s, Apply(d, s, op));
    forall f, b | b in s'.rows ensures Get(f, s'.rows[b]) == Int64(Sum(f, s'.log, b)) {
      var more := ApplyFollowsLog(d, s, op, f, b);
      SumConcat(f, s.log, more, b);
      Int64Add(Sum(f, s.log, b), Sum(f, more, b));
    }
  }

  lemma {:induction false} RunKeepsView(d: Directory, s: State, ops: seq<Op>)
    requires DirectoryOk(d) && Inv(s) && InView(s)
    ensures InView(RunAll(d, s, ops))
    decreases |ops|
  {
    hide Apply;
    hide InView;
    if ops != [] {
      var n := |ops| - 1;
      RunKeepsInv(d, s, ops[..n]);
      RunKeepsView(d, s, ops[..n]);
      ApplyKeepsView(d, RunAll(d, s, ops[..n]), ops[n]);
    }
  }

  /** After any run, every column of every balance is the fold of the whole log. */
  lemma BalancesAreViewOfLog(d: Directory, init: State, ops: seq<Op>)
    requires DirectoryOk(d) && Fresh(init)
    ensures Inv(RunAll(d, init, ops)) && InView(RunAll(d, init, ops))
  {
    RunKeepsInv(d, init, ops);
    RunKeepsView(d, init, ops);
  }
}
