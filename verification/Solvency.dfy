// No overdraft, and no overflow: with non-negative amounts no balance is ever negative, and the
// balance column holds the exact sum for as long as the number of webhook events allows.
module Solvency {
  import opened Base
  import opened Ledger
  import opened Serial
  import opened Entries
  import opened View
  import opened Conservation
  import opened Webhooks

  /** As many deliveries as a balance column has room for: floor((2^63 - 1) / MAX_TOPUP_AMOUNT). */
  const MAX_EVENTS: int := 922_337_203_685

  /** The code itself does not reject negative amounts. */
  predicate NonNegative(op: Op) {
    match op
    case DoTopup(_, amount, _, _, _) => 0 <= amount
    case DoWithdraw(_, amount, _, _, _) => 0 <= amount
    case DoTransfer(_, amount, _, _, _, _) => 0 <= amount
    case DoPay(_, _, price, _, _, _, _, _) => 0 <= price
    case _ => true
  }

  predicate AllNonNegative(ops: seq<Op>) {
    forall op | op in ops :: NonNegative(op)
  }

  /** Logged amounts respect the caps. */
  predicate Capped(log: seq<Txn>) {
    forall t | t in log ::
      && 0 <= t.amount
      && (t.kind == Topup ==> t.amount <= MAX_TOPUP_AMOUNT)
      && (t.kind == Withdrawal ==> t.amount <= MAX_WITHDRAWAL_AMOUNT)
  }

  /** Between any two points of a log the balances together grow by at most the top-up cap per settlement. */
  lemma {:induction false} GrowthIsBounded(keys: set<BalanceId>, ids: seq<BalanceId>, log: seq<Txn>, i: nat, j: nat)
    requires LogOk(keys, log) && Capped(log) && i <= j <= |log|
    requires Enumerates(ids, keys) && WORLD in keys && REVENUE in keys
    ensures Over(ids, Bal, log[..j]) - Over(ids, Bal, log[..i])
            <= MAX_TOPUP_AMOUNT * (Settlements(log[..j]) - Settlements(log[..i]))
    decreases j
  {
    if i < j {
      var before, t := log[..j - 1], log[j - 1];
      GrowthIsBounded(keys, ids, log, i, j - 1);
      assert t in log && EntryOk(keys, log, t);
      assert log[..j] == before + [t];
      OverSnoc(ids, Bal, before, t);
      SpreadIsBothSides(ids, Bal, t);
      SettlementsSnoc(before, t);
    }
  }

  lemma TotalIsBounded(keys: set<BalanceId>, ids: seq<BalanceId>, log: seq<Txn>)
    requires LogOk(keys, log) && Capped(log)
    requires Enumerates(ids, keys) && WORLD in keys && REVENUE in keys
    ensures Over(ids, Bal, log) <= MAX_TOPUP_AMOUNT * Settlements(log)
  {
    GrowthIsBounded(keys, ids, log, 0, |log|);
    EmptyLog(ids, Bal);
    assert log[..|log|] == log && log[..0] == [];
  }

  /** Every balance's fold is non-negative. */
  ghost predicate Solvent(s: State) {
    forall b | b in s.rows :: 0 <= Sum(Bal, s.log, b)
  }

  lemma {:induction false} OneBalanceIsBelowTotal(ids: seq<BalanceId>, log: seq<Txn>, b: BalanceId)
    requires forall c | c in ids :: 0 <= Sum(Bal, log, c)
    ensures 0 <= Over(ids, Bal, log)
    ensures b in ids ==> Sum(Bal, log, b) <= Over(ids, Bal, log)
  {
    if ids != [] {
      var n := |ids| - 1;
      assert ids == ids[..n] + [ids[n]];
      OneBalanceIsBelowTotal(ids[..n], log, b);
    }
  }

  /** While the events fit, the balance column is the exact fold. */
  lemma SolventIsExact(s: State, b: BalanceId)
    requires Inv(s) && InView(s) && Capped(s.log) && Solvent(s) && b in s.rows
    requires |s.events| == Settlements(s.log) <= MAX_EVENTS
    ensures 0 <= s.rows[b].bal == Sum(Bal, s.log, b) <= MAX_TOPUP_AMOUNT * |s.events|
  {
    hide Wraps;
    var ids := Enumerate(s.rows.Keys);
    TotalIsBounded(s.rows.Keys, ids, s.log);
    OneBalanceIsBelowTotal(ids, s.log, b);
    assert Get(Bal, s.rows[b]) == Int64(Sum(Bal, s.log, b));
  }

  /** One committed operation, seen from one balance: what it logs is covered by that balance's row. */
  ghost predicate Covered(s: State, s': State, more: seq<Txn>, b: BalanceId)
    requires b in s.rows
  {
    && s'.log == s.log + more && Capped(more)
    && 0 <= s.rows[b].bal + Sum(Bal, more, b)
  }

  lemma PlainIsCovered(d: Directory, s: State, op: Op, b: BalanceId) returns (more: seq<Txn>)
    requires op.DoTopup? || op.DoWithdraw? || op.DoTransfer?
    requires NonNegative(op) && Apply(d, s, op).Committed? && b in s.rows && 0 <= s.rows[b].bal
    ensures Covered(s, Apply(d, s, op).s, more, b)
  {
    hide Wraps;
    hide Updated;
    var t := match op
      case DoTopup(identity, _, _, _, _) => TopupTxn(op, d.identity[identity])
      case DoWithdraw(identity, _, _, _, _) => WithdrawTxn(op, d.identity[identity])
      case DoTransfer(identity, _, email, _, _, _) => TransferTxn(op, d.identity[identity], d.email[email]);
    more := [t];
    SumOne(Bal, t, b);
  }

  lemma WebhookIsCovered(s: State, op: Op, b: BalanceId) returns (more: seq<Txn>)
    requires Inv(s) && IsWebhook(op) && Capped(s.log) && ApplyWebhook(s, op).Committed?
    requires b in s.rows && 0 <= s.rows[b].bal
    ensures Covered(s, ApplyWebhook(s, op).s, more, b)
  {
    hide SettledRow;
    hide ApplyWebhook;
    var p := DeliverySettlesItsOwnKind(s, op);
    var t := SettleTxn(op, p);
    more := [t];
    SumOne(Bal, t, b);
    assert EntryOk(s.rows.Keys, s.log, p);
  }

  lemma PayIsCovered(d: Directory, s: State, op: Op, b: BalanceId) returns (more: seq<Txn>)
    requires op.DoPay? && NonNegative(op) && ApplyPay(d, s, op).Committed?
    requires b in s.rows && 0 <= s.rows[b].bal
    ensures Covered(s, ApplyPay(d, s, op).s, more, b)
  {
    hide Wraps;
    hide Updated;
    FeeSplit(op.price);
    var a := d.user[op.user];
    var p, f := PayTxn(op, a, d.merchant[op.merchant]), FeeTxn(op, a);
    more := [p, f];
    SumTwo(Bal, p, f, b);
  }

  lemma RefundIsCovered(s: State, op: Op, b: BalanceId) returns (more: seq<Txn>)
    requires op.DoRefund? && Capped(s.log) && ApplyRefund(s, op).Committed?
    requires b in s.rows && 0 <= s.rows[b].bal
    ensures Covered(s, ApplyRefund(s, op).s, more, b)
  {
    hide Updated;
    var t := RefundTxn(op, Find(s.log, s.reqs[op.request].ref).value);
    more := [t];
    SumOne(Bal, t, b);
  }

  lemma ApplyIsCovered(d: Directory, s: State, op: Op, b: BalanceId) returns (more: seq<Txn>)
    requires Inv(s) && Capped(s.log) && NonNegative(op)
    requires b in s.rows && 0 <= s.rows[b].bal
    ensures Covered(s, After(s, Apply(d, s, op)), more, b)
  {
    if Apply(d, s, op).RolledBack? || op.DoRequestRefund? || op.DoMarkFailed? {
      more := [];
    } else if IsWebhook(op) {
      more := WebhookIsCovered(s, op, b);
    } else if op.DoPay? {
      more := PayIsCovered(d, s, op, b);
    } else if op.DoRefund? {
      more := RefundIsCovered(s, op, b);
    } else {
      more := PlainIsCovered(d, s, op, b);
    }
  }

  /** The stronger statement the induction carries. */
  ghost predicate Sound(s: State) {
    Inv(s) && InView(s) && Capped(s.log) && Solvent(s) && |s.events| == Settlements(s.log)
  }

  lemma ApplyKeepsSound(d: Directory, s: State, op: Op)
    requires DirectoryOk(d) && Sound(s) && NonNegative(op) && |s.events| <= MAX_EVENTS
    ensures Sound(After(s, Apply(d, s, op)))
  {
    hide Apply;
    hide Wraps;
    var s' := After(s, Apply(d, s, op));
    ApplyKeepsInv(d, s, op);
    ApplyKeepsView(d, s, op);
    forall b | b in s.rows ensures 0 <= Sum(Bal, s'.log, b) {
      SolventIsExact(s, b);
      var more := ApplyIsCovered(d, s, op, b);
      SumConcat(Bal, s.log, more, b);
    }
    SolventIsExact(s, WORLD);
    var more := ApplyIsCovered(d, s, op, WORLD);
    ApplyKeepsEventCount(d, s, op);
  }

  lemma FreshIsSound(init: State)
    requires Fresh(init)
    ensures Sound(init)
  {
    hide Wraps;
  }

  lemma {:induction false} RunKeepsSound(d: Directory, init: State, ops: seq<Op>)
    requires DirectoryOk(d) && Fresh(init) && AllNonNegative(ops)
    requires |RunAll(d, init, ops).events| <= MAX_EVENTS
    ensures Sound(RunAll(d, init, ops))
    decreases |ops|
  {
    hide Apply;
    if ops == [] {
      FreshIsSound(init);
    } else {
      var n := |ops| - 1;
      var mid := RunAll(d, init, ops[..n]);
      BalancesAreViewOfLog(d, init, ops[..n]);
      ApplyKeepsInv(d, mid, ops[n]);
      EventsShrink(mid.events, RunAll(d, init, ops).events);
      RunKeepsSound(d, init, ops[..n]);
      ApplyKeepsSound(d, mid, ops[n]);
    }
  }

  lemma EventsShrink(a: set<(string, string)>, b: set<(string, string)>)
    requires a <= b
    ensures |a| <= |b|
  {
    assert b == a + (b - a);
  }

  /**
   * With non-negative amounts and at most MAX_EVENTS processed events, every balance of every
   * reachable database is the exact fold of the log, non-negative, and within the top-ups received.
   */
  lemma NoOverdraft(d: Directory, init: State, ops: seq<Op>, b: BalanceId)
    requires DirectoryOk(d) && Fresh(init) && AllNonNegative(ops) && b in init.rows
    requires |RunAll(d, init, ops).events| <= MAX_EVENTS
    ensures var s := RunAll(d, init, ops);
            && b in s.rows
            && 0 <= s.rows[b].bal == Sum(Bal, s.log, b) <= MAX_TOPUP_AMOUNT * |s.events|
  {
    RunKeepsInv(d, init, ops);
    RunKeepsSound(d, init, ops);
    SolventIsExact(RunAll(d, init, ops), b);
  }

  // ----- Conservation without the modulus -----

  lemma {:induction false} DebitIsBounded(keys: set<BalanceId>, all: seq<Txn>, log: seq<Txn>, b: BalanceId)
    requires LogOk(keys, all) && Capped(all) && log <= all
    ensures -MAX_WITHDRAWAL_AMOUNT * |log| <= Sum(Debit, log, b) <= MAX_WITHDRAWAL_AMOUNT * |log|
    decreases |log|
  {
    if log != [] {
      var n := |log| - 1;
      DebitIsBounded(keys, all, log[..n], b);
      assert log[n] in all && EntryOk(keys, all, log[n]);
    }
  }

  lemma {:induction false} ExactColumn(ids: seq<BalanceId>, f: Field, s: State)
    requires forall b | b in ids :: b in s.rows && Get(f, s.rows[b]) == Sum(f, s.log, b)
    ensures ColumnTotal(ids, f, s.rows) == Over(ids, f, s.log)
  {
    if ids != [] {
      ExactColumn(ids[..|ids| - 1], f, s);
    }
  }

  /** The balance columns add up to the folds while the events fit. */
  lemma TotalIsExact(d: Directory, init: State, ops: seq<Op>, ids: seq<BalanceId>)
    requires DirectoryOk(d) && Fresh(init) && AllNonNegative(ops) && Enumerates(ids, init.rows.Keys)
    requires |RunAll(d, init, ops).events| <= MAX_EVENTS
    ensures var s := RunAll(d, init, ops);
            s.rows.Keys == init.rows.Keys && ColumnTotal(ids, Bal, s.rows) == Over(ids, Bal, s.log)
  {
    hide RunAll;
    hide Wraps;
    RunKeepsInv(d, init, ops);
    var s := RunAll(d, init, ops);
    forall b | b in ids ensures Get(Bal, s.rows[b]) == Sum(Bal, s.log, b) {
      NoOverdraft(d, init, ops, b);
    }
    ExactColumn(ids, Bal, s);
  }

  /** From any point of a run on, the balance columns together grow by at most the cap per processed event. */
  lemma RunGrowthIsBounded(d: Directory, init: State, ops: seq<Op>, i: nat, ids: seq<BalanceId>)
    requires DirectoryOk(d) && Fresh(init) && AllNonNegative(ops) && Enumerates(ids, init.rows.Keys) && i <= |ops|
    requires |RunAll(d, init, ops).events| <= MAX_EVENTS
    ensures var s, s' := RunAll(d, init, ops[..i]), RunAll(d, init, ops);
            && s.rows.Keys == s'.rows.Keys == init.rows.Keys && s.events <= s'.events
            && ColumnTotal(ids, Bal, s'.rows) - ColumnTotal(ids, Bal, s.rows)
               <= MAX_TOPUP_AMOUNT * (|s'.events| - |s.events|)
  {
    hide RunAll;
    hide Int64;
    hide Enumerates;
    hide ColumnTotal;
    hide Over;
    hide LogOk;
    hide Capped;
    hide Settlements;
    var s, s' := RunAll(d, init, ops[..i]), RunAll(d, init, ops);
    assert ops == ops[..i] + ops[i..];
    RunAllConcat(d, init, ops[..i], ops[i..]);
    RunKeepsInv(d, init, ops[..i]);
    RunKeepsInv(d, s, ops[i..]);
    EventsShrink(s.events, s'.events);
    TotalIsExact(d, init, ops[..i], ids);
    TotalIsExact(d, init, ops, ids);
    RunKeepsSound(d, init, ops[..i]);
    RunKeepsSound(d, init, ops);
    GrowthIsBounded(s'.rows.Keys, ids, s'.log, |s.log|, |s'.log|);
    assert s'.log[..|s.log|] == s.log && s'.log[..|s'.log|] == s'.log;
  }

  /** While events and entries fit, the columns themselves add up: nothing is lost to the 64 bits. */
  lemma ConservesExactly(d: Directory, init: State, ops: seq<Op>, ids: seq<BalanceId>)
    requires DirectoryOk(d) && Fresh(init) && AllNonNegative(ops) && Enumerates(ids, init.rows.Keys)
    requires |RunAll(d, init, ops).events| <= MAX_EVENTS && |RunAll(d, init, ops).log| <= MAX_EVENTS
    ensures var s := RunAll(d, init, ops);
            && s.rows.Keys == init.rows.Keys
            && ColumnTotal(ids, Bal, s.rows) + ColumnTotal(ids, Debit, s.rows) == NetInflow(s.log)
  {
    hide RunAll;
    hide Wraps;
    hide LogOk;
    hide Capped;
    hide Over;
    hide ColumnTotal;
    RunKeepsInv(d, init, ops);
    RunKeepsSound(d, init, ops);
    var s := RunAll(d, init, ops);
    FoldsConserve(s.rows.Keys, ids, s.log, s.log);
    forall b | b in ids
      ensures Get(Bal, s.rows[b]) == Sum(Bal, s.log, b) && Get(Debit, s.rows[b]) == Sum(Debit, s.log, b)
    {
      NoOverdraft(d, init, ops, b);
      DebitIsBounded(s.rows.Keys, s.log, s.log, b);
      assert Get(Debit, s.rows[b]) == Int64(Sum(Debit, s.log, b));
    }
    ExactColumn(ids, Bal, s);
    ExactColumn(ids, Debit, s);
  }
}
