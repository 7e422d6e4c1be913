// The platform's revenue over whole runs of payments.
module Revenue {
  import opened Base
  import opened Ledger
  import opened Serial
  import opened Entries
  import opened View
  import opened Versions
  import opened Solvency

  /** Fees collected. */
  function Fees(log: seq<Txn>): int {
    if log == [] then 0
    else Fees(log[..|log| - 1]) + if log[|log| - 1].kind == PlatformRevenue then log[|log| - 1].amount else 0
  }

  /** Prices paid: what merchants received plus what the platform kept. */
  function Volume(log: seq<Txn>): int {
    if log == [] then 0
    else
      var t := log[|log| - 1];
      Volume(log[..|log| - 1]) + if t.kind == Payment || t.kind == PlatformRevenue then t.amount else 0
  }

  function PaymentCount(log: seq<Txn>): nat {
    if log == [] then 0
    else PaymentCount(log[..|log| - 1]) + if log[|log| - 1].kind == PlatformRevenue then 1 else 0
  }

  /** 1.5 percent of the volume, and less than a centime per payment on top. */
  predicate RevenueBounded(log: seq<Txn>) {
    15 * Volume(log) <= 1000 * Fees(log) <= 15 * Volume(log) + 999 * PaymentCount(log)
  }

  lemma TalliesSnoc(log: seq<Txn>, t: Txn)
    ensures Fees(log + [t]) == Fees(log) + if t.kind == PlatformRevenue then t.amount else 0
    ensures Volume(log + [t]) == Volume(log) + if t.kind == Payment || t.kind == PlatformRevenue then t.amount else 0
    ensures PaymentCount(log + [t]) == PaymentCount(log) + if t.kind == PlatformRevenue then 1 else 0
  {
    assert (log + [t])[..|log|] == log;
  }

  lemma PayKeepsRevenue(d: Directory, s: State, op: Op)
    requires op.DoPay? && ApplyPay(d, s, op).Committed? && RevenueBounded(s.log)
    ensures RevenueBounded(ApplyPay(d, s, op).s.log)
  {
    hide Updated;
    var a := d.user[op.user];
    var p, f := PayTxn(op, a, d.merchant[op.merchant]), FeeTxn(op, a);
    FeeSplit(op.price);
    TalliesSnoc(s.log, p);
    TalliesSnoc(s.log + [p], f);
    assert s.log + [p] + [f] == s.log + [p, f];
  }

  lemma ApplyKeepsRevenue(d: Directory, s: State, op: Op)
    requires Inv(s) && RevenueBounded(s.log)
    ensures RevenueBounded(After(s, Apply(d, s, op)).log)
  {
    hide Inv;
    hide Updated;
    hide SettledRow;
    hide RevenueBounded;
    hide ApplyPay;
    if Apply(d, s, op).Committed? {
      match op
      case DoPay(_, _, _, _, _, _, _, _) => PayKeepsRevenue(d, s, op);
      case DoTopup(identity, _, _, _, _) => OtherEntryKeepsRevenue(s.log, TopupTxn(op, d.identity[identity]));
      case DoWithdraw(identity, _, _, _, _) => OtherEntryKeepsRevenue(s.log, WithdrawTxn(op, d.identity[identity]));
      case DoTransfer(identity, _, email, _, _, _) =>
        OtherEntryKeepsRevenue(s.log, TransferTxn(op, d.identity[identity], d.email[email]));
      case DoRefund(request, _, _) =>
        OtherEntryKeepsRevenue(s.log, RefundTxn(op, Find(s.log, s.reqs[request].ref).value));
      case DoTopupWebhook(_, _, _, _, _, _, _) =>
        var p := DeliverySettlesItsOwnKind(s, op);
        OtherEntryKeepsRevenue(s.log, SettleTxn(op, p));
      case DoPayoutWebhook(_, _, _, _, _, _, _) =>
        var p := DeliverySettlesItsOwnKind(s, op);
        OtherEntryKeepsRevenue(s.log, SettleTxn(op, p));
      case DoRequestRefund(_, _, _) =>
      case DoMarkFailed(_) =>
    }
  }

  lemma OtherEntryKeepsRevenue(log: seq<Txn>, t: Txn)
    requires RevenueBounded(log) && t.kind != Payment && t.kind != PlatformRevenue
    ensures RevenueBounded(log + [t])
  {
    TalliesSnoc(log, t);
  }

  /** Nothing but fees ever lands on @Revenue. */
  lemma {:induction false} RevenueIsFees(keys: set<BalanceId>, all: seq<Txn>, log: seq<Txn>)
    requires LogOk(keys, all) && log <= all
    ensures Sum(Bal, log, REVENUE) == Fees(log)
    decreases |log|
  {
    if log != [] {
      var n := |log| - 1;
      RevenueIsFees(keys, all, log[..n]);
      assert log[n] in all && EntryOk(keys, all, log[n]);
    }
  }

  lemma {:induction false} RunKeepsRevenue(d: Directory, init: State, ops: seq<Op>)
    requires DirectoryOk(d) && Fresh(init)
    ensures RevenueBounded(RunAll(d, init, ops).log)
    decreases |ops|
  {
    hide Apply;
    if ops != [] {
      var n := |ops| - 1;
      RunKeepsRevenue(d, init, ops[..n]);
      RunKeepsInv(d, init, ops[..n]);
      ApplyKeepsRevenue(d, RunAll(d, init, ops[..n]), ops[n]);
    }
  }

  /** @Revenue holds the fees, and the fees are 1.5 percent of the volume up to rounding. */
  lemma RevenueOverRuns(d: Directory, init: State, ops: seq<Op>)
    requires DirectoryOk(d) && Fresh(init)
    ensures var s := RunAll(d, init, ops);
            && REVENUE in s.rows && s.rows[REVENUE].bal == Int64(Fees(s.log)) && RevenueBounded(s.log)
  {
    hide Wraps;
    hide RunAll;
    BalancesAreViewOfLog(d, init, ops);
    RunKeepsRevenue(d, init, ops);
    var s := RunAll(d, init, ops);
    RevenueIsFees(s.rows.Keys, s.log, s.log);
    assert Get(Bal, s.rows[REVENUE]) == Int64(Sum(Bal, s.log, REVENUE));
  }

  // ----- The same in prices -----

  /** The price an attempt charges: that of a payment that commits. */
  function Charged(d: Directory, s: State, op: Op): int {
    if op.DoPay? && Apply(d, s, op).Committed? then op.price else 0
  }

  /** V: the sum of the prices of the committed payments of a run. */
  function Prices(d: Directory, s: State, ops: seq<Op>): int {
    if ops == [] then 0
    else
      var n := |ops| - 1;
      Prices(d, s, ops[..n]) + Charged(d, RunAll(d, s, ops[..n]), ops[n])
  }

  /** n: how many there are. */
  function Sales(d: Directory, s: State, ops: seq<Op>): nat {
    if ops == [] then 0
    else
      var n := |ops| - 1;
      Sales(d, s, ops[..n]) + if ops[n].DoPay? && Apply(d, RunAll(d, s, ops[..n]), ops[n]).Committed? then 1 else 0
  }

  /** What an attempt adds to the tallies of the log. */
  predicate Tallies(log: seq<Txn>, log': seq<Txn>, price: int, sales: nat) {
    Volume(log') == Volume(log) + price && PaymentCount(log') == PaymentCount(log) + sales
  }

  lemma PayTallies(d: Directory, s: State, op: Op)
    requires op.DoPay? && ApplyPay(d, s, op).Committed?
    ensures Tallies(s.log, ApplyPay(d, s, op).s.log, op.price, 1)
  {
    hide Updated;
    hide CanInsert;
    var a := d.user[op.user];
    var p, f := PayTxn(op, a, d.merchant[op.merchant]), FeeTxn(op, a);
    FeeSplit(op.price);
    TalliesSnoc(s.log, p);
    TalliesSnoc(s.log + [p], f);
    assert s.log + [p] + [f] == s.log + [p, f];
  }

  lemma QuietTallies(log: seq<Txn>)
    ensures Tallies(log, log, 0, 0)
  {
  }

  lemma EntryTallies(log: seq<Txn>, t: Txn)
    requires t.kind != Payment && t.kind != PlatformRevenue
    ensures Tallies(log, log + [t], 0, 0)
  {
    TalliesSnoc(log, t);
  }

  lemma OtherTallies(d: Directory, s: State, op: Op)
    requires Inv(s) && !op.DoPay?
    ensures Tallies(s.log, After(s, Apply(d, s, op)).log, 0, 0)
  {
    hide Inv;
    hide Updated;
    hide SettledRow;
    hide CanInsert;
    hide ApplyPay;
    hide Tallies;
    QuietTallies(s.log);
    if Apply(d, s, op).Committed? {
      match op
      case DoTopup(identity, _, _, _, _) => EntryTallies(s.log, TopupTxn(op, d.identity[identity]));
      case DoWithdraw(identity, _, _, _, _) => EntryTallies(s.log, WithdrawTxn(op, d.identity[identity]));
      case DoTransfer(identity, _, email, _, _, _) =>
        EntryTallies(s.log, TransferTxn(op, d.identity[identity], d.email[email]));
      case DoRefund(request, _, _) => EntryTallies(s.log, RefundTxn(op, Find(s.log, s.reqs[request].ref).value));
      case DoTopupWebhook(_, _, _, _, _, _, _) =>
        var p := DeliverySettlesItsOwnKind(s, op);
        EntryTallies(s.log, SettleTxn(op, p));
      case DoPayoutWebhook(_, _, _, _, _, _, _) =>
        var p := DeliverySettlesItsOwnKind(s, op);
        EntryTallies(s.log, SettleTxn(op, p));
      case DoRequestRefund(_, _, _) =>
      case DoMarkFailed(_) =>
    }
  }

  /** The log's volume is the sum of the prices charged. */
  lemma {:induction false} VolumeIsPrices(d: Directory, init: State, ops: seq<Op>)
    requires DirectoryOk(d) && Fresh(init)
    ensures Tallies([], RunAll(d, init, ops).log, Prices(d, init, ops), Sales(d, init, ops))
    decreases |ops|
  {
    hide Apply;
    hide Inv;
    if ops != [] {
      var n := |ops| - 1;
      var mid := RunAll(d, init, ops[..n]);
      VolumeIsPrices(d, init, ops[..n]);
      RunKeepsInv(d, init, ops[..n]);
      if !ops[n].DoPay? {
        OtherTallies(d, mid, ops[n]);
      } else {
        assert Apply(d, mid, ops[n]) == ApplyPay(d, mid, ops[n]) by { PayIsPay(d, mid, ops[n]); }
        if Apply(d, mid, ops[n]).Committed? {
          PayTallies(d, mid, ops[n]);
        }
      }
    }
  }

  lemma PayIsPay(d: Directory, s: State, op: Op)
    requires op.DoPay?
    ensures Apply(d, s, op) == ApplyPay(d, s, op)
  {
  }

  /**
   * n payments of prices that add up to V leave R in the column of @Revenue, exactly and not modulo
   * 2^64, with 15 V <= 1000 R <= 15 V + 999 n.
   */
  lemma RevenueColumnIsBounded(d: Directory, init: State, ops: seq<Op>)
    requires DirectoryOk(d) && Fresh(init) && AllNonNegative(ops) && |RunAll(d, init, ops).events| <= MAX_EVENTS
    ensures var s := RunAll(d, init, ops);
            var V, n := Prices(d, init, ops), Sales(d, init, ops);
            REVENUE in s.rows && 15 * V <= 1000 * s.rows[REVENUE].bal <= 15 * V + 999 * n
  {
    hide RunAll;
    hide Prices;
    hide Sales;
    hide LogOk;
    RunKeepsInv(d, init, ops);
    RunKeepsRevenue(d, init, ops);
    VolumeIsPrices(d, init, ops);
    NoOverdraft(d, init, ops, REVENUE);
    var s := RunAll(d, init, ops);
    RevenueIsFees(s.rows.Keys, s.log, s.log);
  }

  /** Only a payment writes @Revenue: neither refunds nor deliveries touch it. */
  lemma OnlyPayWritesRevenue(d: Directory, s: State, op: Op)
    requires DirectoryOk(d) && Inv(s) && Apply(d, s, op).Committed?
    ensures REVENUE in WriteSet(d, s, op) <==> op.DoPay?
  {
    hide LogOk;
    hide CanInsert;
    hide Updated;
    hide SettledRow;
    if IsWebhook(op) {
      var _ := DeliverySettlesItsOwnKind(s, op);
    } else if op.DoRefund? {
      RefundableIsMove(s, Find(s.log, s.reqs[op.request].ref).value);
    }
  }

  function Total(parts: seq<int>): int {
    if parts == [] then 0 else Total(parts[..|parts| - 1]) + parts[|parts| - 1]
  }

  function SplitFees(parts: seq<int>): int {
    if parts == [] then 0 else SplitFees(parts[..|parts| - 1]) + Fee(parts[|parts| - 1])
  }

  /** Splitting a purchase never lowers the fee, and raises it by less than a centime per extra part. */
  lemma {:induction false} SplittingCosts(parts: seq<int>)
    requires parts != []
    ensures Fee(Total(parts)) <= SplitFees(parts) <= Fee(Total(parts)) + |parts| - 1
  {
    var n := |parts| - 1;
    if n == 0 {
      assert parts[..n] == [];
    } else {
      SplittingCosts(parts[..n]);
    }
  }
}
